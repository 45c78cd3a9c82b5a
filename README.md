# Task manager entity stores, in Dafny

This project models the entity-store and cascade layer of a single-user task
manager written in Java. The layer keeps four in-memory stores:

- tasks, in `TaskService`;
- reminders, in `ReminderService`;
- priority levels, in `PriorityService`;
- categories, in `CategoryService`.

`ServiceManager` wires these stores together at start-up and tops up the
priority levels. The model also covers the entity classes these stores mutate
(`Task`, `Reminder`, `PriorityLevel`), the `ReminderType` labels, and the
validators and date format of `UIUtils`.

## Modelling choices

- **Mutable objects become classes.** Each Java object whose fields are
  updated in place becomes a Dafny `class`: the entities and the services.
- **Maps stay maps.** Each service's `HashMap` is a `map<Id, …>` field that its
  methods reassign.
- **Save counters stand in for storage.** Each write to storage is counted in
  a `saves` field. The contract of every store operation says exactly when that
  store persists. The start-up contract states the counts of the reminder,
  category and priority stores; the task store's start-up count is stated by
  `LoadStores` and by the task store's own constructor.
- **Cascades run through the real calls.** They are modelled through the calls
  the source makes:
  - deleting a category deletes each of its tasks through `deleteTask`;
  - deleting a task, or storing a COMPLETED one, deletes that task's reminders;
  - deleting a priority level moves its tasks to the default level through
    `setPriority` and `updateTask`.
- **Clocks and UUIDs are parameters.** `LocalDate.now()` becomes a `today`
  parameter. Each UUID the code would draw is an `id` parameter.
- **Java `null` becomes `Option` or a nullable reference.**
  - A nullable value is an `Option`.
  - A nullable object reference is a `?` type.
  - A task's category is an `Option<Category>`: the task dialogs pass the
    category box's value as it is, null when nothing is picked.
  - A `NullPointerException` is the `NullPointer` error. In particular, a
    stored task with a null category makes `getTasksByCategory` and so
    `deleteCategory` throw. In a category-filtered `searchTasks`, only such a
    task that passes the title filter makes it throw. A task with a null
    priority makes a priority-filtered `searchTasks` throw only when it passes
    the title and category filters.
- **Exceptions become results.** A thrown exception is a `Failure`/`Fail`
  result whose state change is stated to be none.
- **Dates are civil dates.** `LocalDate` is a (year, month, day) triple with
  the proleptic Gregorian rules:
  - `minusDays` and `minusWeeks` step day by day;
  - `minusMonths` clamps the day to the length of the target month, as
    `java.time` does.
- **Strings are character sequences.** `toLowerCase`, `trim` and
  `String.contains` are spelled out on `seq<char>`.
- **Iteration order is not modelled.** The Java code iterates over
  `HashMap.values()` in an unspecified order. The loops here pick an arbitrary
  remaining element, so what they prove holds for every order. Results returned
  as `List`s are sets.
- **Where the code and its design description disagree, the model follows the
  code:**
  - `PriorityService`'s constructor never puts a loaded level into its map, so
    the map is empty after construction.
  - The persistence layer's `loadPriorityLevels` never returns an empty list.
    So the "Normal" branch of the constructor does not run at start-up, and
    `ensureDefaultPriorityLevels` always creates Default, High, Low and Urgent.
  - `getDefaultPriorityLevel` returns the `defaultPriority` field (possibly
    null). It does not search for the level flagged default.
  - A CUSTOM_DATE reminder without a date fails with a null dereference (the
    `NullPointer` error), not with an input-validation error.
  - An unknown reminder id in `updateReminder` and any change to the default
    level both throw `IllegalArgumentException`.
  - The name-based reconciliation of tasks against categories and priority
    levels does not exist in `TaskService`. `ServiceManager` calls it, but it is
    not part of this model.

## Model

| member | source | states |
|---|---|---|
| Tasks.StatusAfterCheck | src/main/java/com/medialab/tasksystem/model/Task.java:101-112 | The status after the check is DELAYED exactly when the task is overdue (not completed, and its deadline is strictly before today); otherwise the status is kept, and a completed task stays completed. |
| Tasks.Overdue | src/main/java/com/medialab/tasksystem/model/Task.java:102-106 | A completed task and a task without a deadline are never overdue. |
| Tasks.OverdueLater | src/main/java/com/medialab/tasksystem/model/Task.java:102-106 | A task overdue on one day is overdue on every later day. |
| Tasks.Task.IsDelayed | src/main/java/com/medialab/tasksystem/model/Task.java:101-106 | When isDelayed holds the deadline check makes the task DELAYED; when it does not, the check keeps the status. |
| Tasks.StatusCheckIdempotent | src/main/java/com/medialab/tasksystem/model/Task.java:108-112 | Checking a task a second time on the same day leaves its status as the first check left it. |
| Tasks.Task.constructor | src/main/java/com/medialab/tasksystem/model/Task.java:20-34 | A new task carries the given id, title, description, category (possibly null), priority and deadline, and is OPEN. |
| Tasks.Task.SetTitle | src/main/java/com/medialab/tasksystem/model/Task.java:49-51 | Sets the title; every other field is unchanged. |
| Tasks.Task.SetDescription | src/main/java/com/medialab/tasksystem/model/Task.java:57-59 | Sets the description; every other field is unchanged. |
| Tasks.Task.SetCategory | src/main/java/com/medialab/tasksystem/model/Task.java:65-67 | Sets the category, possibly to null; every other field is unchanged. |
| Tasks.Task.SetPriority | src/main/java/com/medialab/tasksystem/model/Task.java:73-75 | Sets the priority; every other field is unchanged. |
| Tasks.Task.SetDeadline | src/main/java/com/medialab/tasksystem/model/Task.java:81-83 | Sets the deadline; every other field is unchanged. |
| Tasks.Task.SetStatus | src/main/java/com/medialab/tasksystem/model/Task.java:89-91 | Sets the status; every other field is unchanged. |
| Tasks.Task.CheckAndUpdateStatus | src/main/java/com/medialab/tasksystem/model/Task.java:108-112 | A delayed task (isDelayed) becomes DELAYED, any other keeps its status; isDelayed itself is unchanged, so a second call does nothing; no other field changes. |
| ReminderTypes.LabelsDistinct | src/main/java/com/medialab/tasksystem/model/ReminderType.java:10-17 | Two reminder types have the same label exactly when they are the same type. |
| ReminderTypes.Label | src/main/java/com/medialab/tasksystem/model/ReminderType.java:9-18 | The three relative types read "... before deadline"; the custom type does not. |
| Reminders.ReminderTextRoundTrip | src/main/java/com/medialab/tasksystem/model/Reminder.java:56-61 | The text `type (date)`, with "Unknown" for no type and "No date" for no date, can be read back to the type and the date it shows. |
| Reminders.Reminder.constructor | src/main/java/com/medialab/tasksystem/model/Reminder.java:16-21 | A new reminder carries the given id, task id, type and date. |
| Reminders.Reminder.SetType | src/main/java/com/medialab/tasksystem/model/Reminder.java:44-46 | Sets the type; the date is unchanged. |
| Reminders.Reminder.SetReminderDate | src/main/java/com/medialab/tasksystem/model/Reminder.java:52-54 | Sets the date; the type is unchanged. |
| Reminders.Reminder.ToString | src/main/java/com/medialab/tasksystem/model/Reminder.java:56-61 | The text is the type label (or "Unknown"), " (", the ISO date (or "No date") and ")"; it determines the type and the date. |
| PriorityLevels.PriorityLevel.constructor | src/main/java/com/medialab/tasksystem/model/PriorityLevel.java:8-16 | A new level carries the given id, name and default flag. |
| PriorityLevels.PriorityLevel.SetName | src/main/java/com/medialab/tasksystem/model/PriorityLevel.java:22 | Sets the name; the default flag is unchanged. |
| PriorityLevels.PriorityLevel.SetDefault | src/main/java/com/medialab/tasksystem/model/PriorityLevel.java:25 | Sets the default flag; the name is unchanged. |
| PriorityLevels.PriorityLevel.ToString | src/main/java/com/medialab/tasksystem/model/PriorityLevel.java:27-30 | A level is shown by its name alone. |
| UIUtils.FormatDate | src/main/java/com/medialab/tasksystem/util/UIUtils.java:45-47 | A null date gives the empty text and only it does; a date gives eight characters dd/MM/yy: three two-digit fields separated by slashes that read back as the day, the month and the year of era modulo 100. |
| UIUtils.MissingIffBlank | src/main/java/com/medialab/tasksystem/util/UIUtils.java:50 | A string is null or empty after `trim` exactly when it is null or made only of characters up to the space. |
| UIUtils.ValidateTaskInput | src/main/java/com/medialab/tasksystem/util/UIUtils.java:49-57 | No error exactly when the title is not blank and the deadline is present; a blank title reports the title whatever the deadline; otherwise a missing deadline reports the deadline. |
| UIUtils.ValidateCategoryInput | src/main/java/com/medialab/tasksystem/util/UIUtils.java:59-64 | No error exactly when the name is present and not blank; otherwise the category-name message. |
| UIUtils.ValidatePriorityInput | src/main/java/com/medialab/tasksystem/util/UIUtils.java:66-71 | No error exactly when the name is present and not blank; otherwise the priority-name message. |
| Text.TrimEmptyIffBlank | src/main/java/com/medialab/tasksystem/util/UIUtils.java:60 | `trim` yields the empty string exactly when every character is at most the space. |
| Text.TwoDigits | src/main/java/com/medialab/tasksystem/util/UIUtils.java:10 | A two-digit field is two digits that read back as the number. |
| Text.LowerIdempotent | src/main/java/com/medialab/tasksystem/service/TaskService.java:81 | Lower-casing twice is lower-casing once. |
| Dates.MinusDayRoundTrip | src/main/java/com/medialab/tasksystem/service/ReminderService.java:43 | A day before a date is its predecessor, and a day after it is the date again. |
| Dates.MinusWeekRoundTrip | src/main/java/com/medialab/tasksystem/service/ReminderService.java:45 | A week before a date is strictly earlier, and seven days after it is the date again. |
| Dates.MinusMonthShape | src/main/java/com/medialab/tasksystem/service/ReminderService.java:47 | A month before a date is in the previous calendar month (December of the previous year for January), on the same day clamped to that month's length, and strictly earlier. |
| Dates.PlusDaysMonotonic | src/main/java/com/medialab/tasksystem/service/TaskService.java:106 | Adding more days never gives an earlier date. |
| DateText.IsoDateRoundTrip | src/main/java/com/medialab/tasksystem/model/Reminder.java:59 | The ISO text of a date reads back as that date. |
| ReminderStore.CalculateReminderDate | src/main/java/com/medialab/tasksystem/service/ReminderService.java:40-53 | One day before is the deadline's predecessor; one week before is seven days earlier; one month before is in the previous month with the day clamped; all three are strictly before the deadline; a custom date is passed through, possibly null. |
| ReminderStore.ValidateReminderDate | src/main/java/com/medialab/tasksystem/service/ReminderService.java:55-62 | Passes exactly when the date is not after the deadline and not before today; a date after the deadline is reported as such first, otherwise a past date is. |
| ReminderStore.PlanReminder | src/main/java/com/medialab/tasksystem/service/ReminderService.java:26-32 | A completed task is refused with IllegalState; otherwise a missing deadline or a missing custom date throws NullPointer, and a computed date that fails validation throws that validation's error; a success carries the computed date, which lies in [today, deadline]; a task not completed with a deadline succeeds exactly when the computed date exists and validates. |
| ReminderStore.CustomDateBoundaries | src/main/java/com/medialab/tasksystem/service/ReminderService.java:55-62 | A custom reminder on the deadline itself is accepted when the deadline is not past; one a day after the deadline is refused as after the deadline; one before today is refused as past. |
| ReminderStore.WithoutTasks | src/main/java/com/medialab/tasksystem/service/ReminderService.java:69-72 | Keeps exactly the reminders whose task is not among the given ids, unchanged. |
| ReminderStore.WithoutTasksCompose | src/main/java/com/medialab/tasksystem/service/ReminderService.java:69-72 | Removing two sets of tasks' reminders in turn is removing both at once; removing the same ones twice is removing them once. |
| ReminderStore.ReminderService.constructor | src/main/java/com/medialab/tasksystem/service/ReminderService.java:12-20 | The store holds the loaded reminders by id, a later one replacing an earlier one with the same id, and has saved nothing. |
| ReminderStore.ReminderService.CreateReminder | src/main/java/com/medialab/tasksystem/service/ReminderService.java:26-38 | On every refusal the exception is returned and neither the map nor storage changes; on success exactly one reminder, for that task, with that type and the computed date, is added under the new id and saved once. |
| ReminderStore.ReminderService.DeleteReminder | src/main/java/com/medialab/tasksystem/service/ReminderService.java:64-67 | Removes that id only, whether present or not, and saves. |
| ReminderStore.ReminderService.DeleteRemindersForTask | src/main/java/com/medialab/tasksystem/service/ReminderService.java:69-72 | Removes exactly the reminders of that task and keeps all others; afterwards none refers to the task; when none did, nothing changes; saves once. |
| ReminderStore.ReminderService.UpdateReminder | src/main/java/com/medialab/tasksystem/service/ReminderService.java:78-85 | A known id is replaced and saved; an unknown id throws "Reminder not found." and changes nothing. |
| TaskStore.TaskService.constructor | src/main/java/com/medialab/tasksystem/service/TaskService.java:13-17 | The store holds the loaded tasks by id, already checked for deadlines: each task's status is the checked status, no other field changes, no overdue task is left undelayed, and storage is written once exactly when some status changed; a loaded task that a later one with the same id displaces is left unchanged. |
| TaskStore.TaskService.LoadTasks | src/main/java/com/medialab/tasksystem/service/TaskService.java:19-22 | Puts the loaded tasks in by id and then runs the deadline check, with the outcome stated for the constructor. |
| TaskStore.TaskService.PutAll | src/main/java/com/medialab/tasksystem/service/TaskService.java:20 | The map becomes the loaded tasks by id, a later one replacing an earlier one. |
| TaskStore.TaskService.CheckDeadlines | src/main/java/com/medialab/tasksystem/service/TaskService.java:42-55 | Every stored task that is not completed and whose deadline has passed is DELAYED, every other keeps its status, nothing else changes; storage is written once exactly when some task was overdue and not yet DELAYED, so a second run writes nothing and changes nothing. |
| TaskStore.TaskService.GetAllTasks | src/main/java/com/medialab/tasksystem/service/TaskService.java:32-34 | Every stored task is listed and every task listed is stored. |
| TaskStore.AllTasksCount | src/main/java/com/medialab/tasksystem/service/TaskService.java:32-34 | The list holds as many tasks as the store. |
| TaskStore.TaskService.GetTaskById | src/main/java/com/medialab/tasksystem/service/TaskService.java:28-30 | Found exactly when the id is stored; the task found is a stored task and carries that id. |
| TaskStore.TaskService.CreateTask | src/main/java/com/medialab/tasksystem/service/TaskService.java:57-63 | A new OPEN task with exactly the given fields (the category possibly null) is stored under the new id (one more entry when the id is new), every other entry is unchanged, and the store is saved once. |
| TaskStore.TaskService.UpdateTask | src/main/java/com/medialab/tasksystem/service/TaskService.java:65-71 | An upsert under the task's id with every other entry unchanged; a COMPLETED task loses all its reminders first (none is left), any other status leaves the reminders and their storage alone. |
| TaskStore.TaskService.DeleteTask | src/main/java/com/medialab/tasksystem/service/TaskService.java:73-77 | Removes that id only and every reminder of that task, also when the id is absent; both stores save once. |
| TaskStore.TaskService.UncompletedTasks | src/main/java/com/medialab/tasksystem/service/TaskService.java:36-40 | Exactly the stored tasks that are not completed. |
| TaskStore.UncompletedPartition | src/main/java/com/medialab/tasksystem/service/TaskService.java:36-40 | The uncompleted tasks and the completed-task count add up to the number of tasks. |
| TaskStore.TaskService.SearchTasks | src/main/java/com/medialab/tasksystem/service/TaskService.java:79-85 | Throws NullPointer exactly when some stored task passes the title filter and then meets a given category filter with a null category, or passes the category filter and meets a given priority filter with a null priority. Otherwise: exactly the stored tasks that pass every given filter, namely a case-insensitive substring test on the title, equality of category and identity of the priority level; an absent filter passes every task. |
| TaskStore.SearchUnfiltered | src/main/java/com/medialab/tasksystem/service/TaskService.java:79-85 | Without filters the search succeeds and returns every task. |
| TaskStore.SearchEmptyTitle | src/main/java/com/medialab/tasksystem/service/TaskService.java:81 | An empty title filter matches every title, like no title filter. |
| TaskStore.SearchIgnoresCase | src/main/java/com/medialab/tasksystem/service/TaskService.java:81 | Lower-casing the title query does not change the result. |
| TaskStore.SearchNarrows | src/main/java/com/medialab/tasksystem/service/TaskService.java:79-85 | A title filter never makes a search throw and only shrinks its result; a search that succeeds with a priority filter also succeeds without it, with at least the same tasks; when a search succeeds both with and without a category filter, the filtered result is the smaller. |
| TaskStore.SearchByCategory | src/main/java/com/medialab/tasksystem/service/TaskService.java:87-91 | Searching by category alone is getTasksByCategory, the NullPointer case included. |
| TaskStore.TaskService.TasksByCategory | src/main/java/com/medialab/tasksystem/service/TaskService.java:87-91 | Throws NullPointer exactly when some stored task has a null category, whatever category is asked for; otherwise exactly the stored tasks whose category equals the given one. |
| TaskStore.TaskService.DelayedTasksCount | src/main/java/com/medialab/tasksystem/service/TaskService.java:93-97 | The number of DELAYED tasks, at most the number of tasks. |
| TaskStore.TaskService.CompletedTasksCount | src/main/java/com/medialab/tasksystem/service/TaskService.java:99-103 | The number of COMPLETED tasks, at most the number of tasks. |
| TaskStore.CountersBounded | src/main/java/com/medialab/tasksystem/service/TaskService.java:93-103 | Delayed and completed tasks together are at most all the tasks. |
| TaskStore.TaskService.TasksWithinDaysCount | src/main/java/com/medialab/tasksystem/service/TaskService.java:105-111 | Counts the tasks not completed whose deadline is on or before today plus the given days; with the completed ones it is at most all the tasks. |
| TaskStore.WithinDaysMonotonic | src/main/java/com/medialab/tasksystem/service/TaskService.java:105-111 | Looking further ahead never counts fewer tasks. |
| CategoryStore.DefaultCategories | src/main/java/com/medialab/tasksystem/service/CategoryService.java:21-28 | Five categories, the i-th named Work, Personal, Study, Health, Finance in that order. |
| CategoryStore.DefaultCategoriesStored | src/main/java/com/medialab/tasksystem/service/CategoryService.java:17-34 | With distinct UUIDs, bootstrapping an empty store yields exactly five categories, each under its own id with its own default name. |
| CategoryStore.CategoryService.constructor | src/main/java/com/medialab/tasksystem/service/CategoryService.java:11-34 | An empty store is seeded with the five defaults and saved once; a non-empty one is kept as loaded, unsaved; either way the categories are put in by id. |
| CategoryStore.CategoryService.PutAll | src/main/java/com/medialab/tasksystem/service/CategoryService.java:33 | The map becomes the categories by id, a later one replacing an earlier one. |
| CategoryStore.CategoryService.GetAllCategories | src/main/java/com/medialab/tasksystem/service/CategoryService.java:64-66 | Exactly the stored categories. |
| CategoryStore.CategoryService.GetCategoryById | src/main/java/com/medialab/tasksystem/service/CategoryService.java:68-70 | Found exactly when the id is stored; the category found carries that id. |
| CategoryStore.CategoryService.CreateCategory | src/main/java/com/medialab/tasksystem/service/CategoryService.java:40-45 | A category with that name is stored under the new id (one more entry when the id is new), others unchanged, saved once. |
| CategoryStore.CategoryService.UpdateCategory | src/main/java/com/medialab/tasksystem/service/CategoryService.java:47-50 | An upsert by id with every other category unchanged, saved once. |
| CategoryStore.CategoryService.DeleteCategory | src/main/java/com/medialab/tasksystem/service/CategoryService.java:52-62 | An unknown id changes and saves nothing. A known id while some stored task has a null category throws NullPointer, and nothing changes or is saved. Otherwise: the tasks of that category are deleted, with their reminders; the task store and the reminder store each save once per deleted task; no remaining task has that category and every task of another category remains; the category is removed and saved. |
| CategoryStore.CategoryService.DeleteTasks | src/main/java/com/medialab/tasksystem/service/CategoryService.java:56-57 | Deleting each given task through deleteTask removes exactly those tasks and their reminders, with one save per task in each store. |
| CategoryStore.CategoryService.DeleteOne | src/main/java/com/medialab/tasksystem/service/CategoryService.java:57 | One more deleteTask extends the deletion done so far by that task. |
| PriorityStore.PriorityService.constructor | src/main/java/com/medialab/tasksystem/service/PriorityService.java:13-45 | The level map is empty whatever was loaded; only an empty load creates a "Normal" default of record and saves once. |
| PriorityStore.PriorityService.GetDefaultPriorityLevel | src/main/java/com/medialab/tasksystem/service/PriorityService.java:94-96 | The default of record itself, as the constructor, createPriorityLevel and the start-up left it, possibly null; it is not looked up in the level map. |
| PriorityStore.PriorityService.GetAllPriorityLevels | src/main/java/com/medialab/tasksystem/service/PriorityService.java:90-92 | Exactly the stored levels. |
| PriorityStore.PriorityService.GetPriorityLevelById | src/main/java/com/medialab/tasksystem/service/PriorityService.java:98-100 | Found exactly when the id is stored; the level found carries that id. |
| PriorityStore.PriorityService.CreatePriorityLevel | src/main/java/com/medialab/tasksystem/service/PriorityService.java:50-58 | A new level with that name and flag is stored under the new id, other levels unchanged; a default level becomes the default of record, otherwise the default of record is kept; saved once. |
| PriorityStore.PriorityService.UpdatePriorityLevel | src/main/java/com/medialab/tasksystem/service/PriorityService.java:60-66 | A level flagged default is refused and nothing changes; any other is stored under its id and saved. |
| PriorityStore.PriorityService.DeletePriorityLevel | src/main/java/com/medialab/tasksystem/service/PriorityService.java:68-88 | An unknown id changes nothing. A default level is refused and nothing changes; in both cases no store saves. Otherwise: every task on that level gets the default of record and is stored again, one task-store save each; the others keep their level; completed movers lose their reminders, one reminder-store save each; the level is removed and saved. On every path no task's title, description, status, deadline or category changes. Afterwards no task is on the level unless the default of record is. |
| PriorityStore.PriorityService.MoveUsersToDefault | src/main/java/com/medialab/tasksystem/service/PriorityService.java:79-84 | Each task on the level gets the default of record, and each other task keeps its level; title, description, status, deadline and category are kept. The task store saves once per moved task; the reminders of the moved completed tasks are deleted, with one reminder-store save per such task. |
| PriorityStore.PriorityService.SkipOtherLevel | src/main/java/com/medialab/tasksystem/service/PriorityService.java:80 | A pass over a task of another level keeps the loop's state. |
| PriorityStore.PriorityService.MoveUser | src/main/java/com/medialab/tasksystem/service/PriorityService.java:80-83 | A pass over a task on the level moves it and keeps the loop's state. |
| PriorityStore.PriorityService.MoveToDefault | src/main/java/com/medialab/tasksystem/service/PriorityService.java:81-82 | The task's level becomes the default of record and no other field of any stored task changes (title, description, status, deadline, category); the task store saves once; a completed task's reminders are deleted and the reminder store saves once, otherwise it neither changes nor saves. |
| Persistence.LoadPriorityLevels | src/main/java/com/medialab/tasksystem/service/DataPersistenceService.java:110-117 | Never empty: what storage holds, or a single new level "Default" flagged default. |
| Services.DefaultLevelsShape | src/main/java/com/medialab/tasksystem/service/ServiceManager.java:45-52 | From no level or from one, the store ends with four levels; created from none they are Default, High, Low and Urgent, Default alone flagged default. |
| Services.ServiceManager.EnsureDefaultPriorityLevels | src/main/java/com/medialab/tasksystem/service/ServiceManager.java:41-55 | With two or more levels nothing changes. With none, Default (made the default of record), High, Low and Urgent are added; with one, High, Low and Urgent are added, non-default, and the default of record is kept. One save per level created. |
| Services.CreateDefaultLevels | src/main/java/com/medialab/tasksystem/service/ServiceManager.java:47-52 | The createPriorityLevel calls add Default (made the default of record) when asked to, then High, Low and Urgent, one save each. |
| Services.LoadStores | src/main/java/com/medialab/tasksystem/service/ServiceManager.java:18-25 | The reminder, task and category stores are built in that order and share one reminder and one task store; the reminder and category stores hold what was loaded, the categories falling back to the defaults when none were. The task store holds the loaded tasks by id after the deadline check (`CheckedOnLoad`): each kept task's status is the checked one and its deadline, title, description, category and priority are kept; no overdue task is left undelayed; a loaded task that a later one with the same id displaces is left unchanged. The reminder store does not save, the task store saves once exactly when some loaded task was overdue and not yet DELAYED, the category store once exactly when it fell back to the defaults. |
| Services.LoadPriorities | src/main/java/com/medialab/tasksystem/service/ServiceManager.java:27-28 | The priority store is built over the shared task store; what the persistence layer loads is never empty, so the store takes the branch that keeps no level: its level map starts empty, it has no default of record and it has not saved. |
| Services.ServiceManager.constructor | src/main/java/com/medialab/tasksystem/service/ServiceManager.java:14-39 | The stores are built reminder, task, category, priority and share one task and one reminder store; the reminder and category stores hold what was loaded and the task store is keyed by the loaded tasks' ids; every session starts with exactly the four levels Default, High, Low and Urgent, Default alone flagged and the default of record. At start-up the reminder store does not save, the category store saves once exactly when no category was loaded, and the priority store saves once per default level. |

## Left out

- Persistence is not modelled: JSON files, directories and storage errors. A
  write to storage is a counter, and what storage holds is a parameter. The
  content of each saved list is not modelled. In particular, this covers the
  High, Low and Urgent levels that `PriorityService`'s "Normal" branch writes
  to storage without keeping them.
- The console logging of `PriorityService` and `ServiceManager` is not
  modelled.
- `ServiceManager` hands the stores to the persistence layer and calls
  `reconcilePriorities` and `reconcileCategories`. These calls are not
  modelled: the reconcile methods do not exist in `TaskService`.
- The JavaFX alert helpers of `UIUtils`, the views, and the timer that runs the
  deadline check are not modelled: they are user interface.
- The no-argument constructors and `setId` of Task, Reminder and PriorityLevel
  are not modelled, so ids are fixed at creation. Task's no-argument
  constructor also builds a temporary object in the views that never reaches
  the store. `setId` and the Reminder and PriorityLevel ones are used only by
  JSON loading.
- `Reminders.Reminder`: `setTaskId` is not modelled. It is never called, so a
  reminder's task id is fixed at creation.
- `Task.getReminders`/`setReminders` are not modelled. The services never use
  this list.
- `Services.ServiceManager.constructor`: the contents of the loaded tasks at
  start-up (checked status, kept fields, no pending delay, the task-store save
  count) are stated only by `Services.LoadStores`, which the constructor calls
  first. Restating them across the priority-level creation that follows is
  beyond the solver budget.
- `TaskStore.TaskService.CheckDeadlines`: a task without a deadline counts as
  not overdue. Java dereferences the null deadline and throws.
  `TaskStore.TaskService.TasksWithinDaysCount` likewise does not count such a
  task.
- `TaskStore.TaskService.SearchTasks`: a null task title is not modelled; a
  task's title is a string. Java throws on a null task title that meets a
  title filter. A null title query is modelled as `None` and, as in Java,
  filters nothing.
- `Categories.Category`: `Category.java` is not part of this model. A category
  is a value (id, name), so two categories with the same id and name are
  equal. If Java's `Category` keeps `Object.equals`, `getTasksByCategory` and
  `searchTasks` match only the very object a task holds, and a task holding an
  equal copy is not deleted by `deleteCategory`; the model matches copies too.
- `Text.Lower`: lower-casing covers the ASCII letters only. Java's
  `toLowerCase` is locale- and Unicode-aware.
- `Dates.PlusDays`: dates are unbounded. The year limits of `LocalDate` and
  `int` overflow in `getTasksWithinDaysCount` are not modelled.
- `Persistence.LoadPriorityLevels`: this is the only part of the persistence
  layer modelled. The rest is out of the core.
- The order in which `HashMap.values()` is visited is not modelled, and the
  `List` results are sets.
