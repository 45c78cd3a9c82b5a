/** The wiring of the four stores at start-up, and the priority levels every
    session begins with. */
module Services {
  import opened Base
  import opened Dates
  import opened PriorityLevels
  import opened Categories
  import opened Tasks
  import opened Reminders
  import opened ReminderStore
  import opened TaskStore
  import opened CategoryStore
  import opened PriorityStore
  import opened Persistence

  /** The names of the levels ensureDefaultPriorityLevels may create, in order. */
  const LevelNames: seq<string> := ["Default", "High", "Low", "Urgent"]

  /** The levels of `before` with those ensureDefaultPriorityLevels creates
      under `ids` put in one after the other: all four when `first` is 0, the
      last three when it is 1. */
  function WithDefaults(before: map<Id, (string, bool)>, ids: seq<Id>, first: nat): map<Id, (string, bool)>
    requires |ids| == |LevelNames|
  {
    var start := if first == 0 then before[ids[0] := ("Default", true)] else before;
    start[ids[1] := ("High", false)][ids[2] := ("Low", false)][ids[3] := ("Urgent", false)]
  }

  /** With distinct fresh UUIDs a store ends up with four levels, whether it
      held none or one; created from none, they are Default, High, Low and
      Urgent, Default alone marked default. */
  lemma DefaultLevelsShape(ids: seq<Id>, before: map<Id, (string, bool)>)
    requires |ids| == |LevelNames|
    requires forall i, j :: 0 <= i < j < |ids| ==> ids[i] != ids[j]
    requires |before| <= 1 && forall i :: 0 <= i < |ids| ==> ids[i] !in before
    ensures var first := if before == map[] then 0 else 1;
      |WithDefaults(before, ids, first)| == |LevelNames|
    ensures forall k :: k in WithDefaults(map[], ids, 0) ==> (WithDefaults(map[], ids, 0)[k].1 <==> k == ids[0])
    ensures WithDefaults(map[], ids, 0).Values
      == {("Default", true), ("High", false), ("Low", false), ("Urgent", false)}
  {
    assert WithDefaults(map[], ids, 0).Keys == {ids[0], ids[1], ids[2], ids[3]};
    if before != map[] {
      var k0 :| k0 in before;
      if exists k1 :: k1 in before && k1 != k0 {
        var k1 :| k1 in before && k1 != k0;
        SubsetCardinality({k0, k1}, before.Keys);
        assert false;
      }
      assert before.Keys == {k0};
      assert WithDefaults(before, ids, 1).Keys == {k0, ids[1], ids[2], ids[3]};
    }
  }

  /** What loading leaves in the task store `ts`, relative to the state before
      it: every stored task existed before, its status is the one the deadline
      check gives and its other fields are kept, no overdue task is left
      undelayed, and storage was written once exactly when some status changed. */
  twostate predicate CheckedOnLoad(new ts: TaskService, today: Date)
    reads ts, ts.tasks.Values
  {
    && (forall t :: t in ts.tasks.Values ==> old(allocated(t)))
    && (forall t :: t in ts.tasks.Values && old(allocated(t)) ==>
          t.status == StatusAfterCheck(old(t.status), t.deadline, today)
          && t.deadline == old(t.deadline) && t.title == old(t.title) && t.description == old(t.description)
          && t.category == old(t.category) && t.priority == old(t.priority))
    && !ts.HasPendingDelay(today)
    && ts.saves == if exists t :: t in ts.tasks.Values && old(allocated(t)) && old(t.status) != Delayed
                                   && Overdue(old(t.status), t.deadline, today) then 1 else 0
  }

  /** The first half of `new ServiceManager()`: the reminder, task and category
      stores, built in that order over the stored data. */
  method LoadStores(storedReminders: seq<Reminder>, storedTasks: seq<Task>, storedCategories: seq<Category>,
                    today: Date, categoryIds: seq<Id>)
    returns (reminders: ReminderService, tasks: TaskService, categories: CategoryService)
    requires |categoryIds| == |DefaultNames|
    modifies set t | t in storedTasks
    ensures fresh(reminders) && fresh(tasks) && fresh(categories)
    ensures tasks.reminderService == reminders && categories.taskService == tasks && categories.Valid()
    ensures reminders.reminders == IndexBy(storedReminders, IdOf) && reminders.saves == 0
    ensures tasks.tasks == IndexBy(storedTasks, TaskIdOf)
    ensures forall t :: t in storedTasks && t !in tasks.tasks.Values ==> unchanged(t)
    ensures CheckedOnLoad(tasks, today)
    ensures categories.categories
      == IndexBy(if storedCategories == [] then DefaultCategories(categoryIds) else storedCategories, CategoryIdOf)
    ensures categories.saves == if storedCategories == [] then 1 else 0
  {
    reminders := new ReminderService(storedReminders);
    tasks := new TaskService(reminders, storedTasks, today);
    categories := new CategoryService(tasks, storedCategories, categoryIds);
  }

  /** The priority store of `new ServiceManager()`, built over what the
      persistence layer loads: since that is never empty, the store starts with
      no level, no default of record and nothing saved. */
  method LoadPriorities(tasks: TaskService, storedLevels: seq<PriorityLevel>, loadedId: Id, normalId: Id)
    returns (priorities: PriorityService)
    requires tasks.Valid()
    ensures fresh(priorities) && priorities.taskService == tasks && priorities.Valid()
    ensures priorities.priorityLevels == map[] && priorities.defaultPriority == null && priorities.saves == 0
  {
    var levels := LoadPriorityLevels(storedLevels, loadedId);
    priorities := new PriorityService(tasks, levels, normalId);
  }

  /** The UUIDs the start-up draws, in the order it draws them. */
  datatype StartupIds = StartupIds(loadedLevel: Id, normalLevel: Id, categories: seq<Id>, levels: seq<Id>)
  {
    /** As many as are needed, and the four level UUIDs distinct. */
    predicate Enough() {
      && |categories| == |DefaultNames| && |levels| == |LevelNames|
      && forall i, j :: 0 <= i < j < |levels| ==> levels[i] != levels[j]
    }
  }

  class ServiceManager {
    const reminderService: ReminderService
    const taskService: TaskService
    const categoryService: CategoryService
    const priorityService: PriorityService

    /** The stores share one task store and one reminder store, and each is valid. */
    ghost predicate Valid()
      reads this, reminderService, taskService, categoryService, priorityService
    {
      && taskService.reminderService == reminderService
      && categoryService.taskService == taskService
      && priorityService.taskService == taskService
      && categoryService.Valid() && priorityService.Valid()
    }

    /** `new ServiceManager()`: the reminder, task, category and priority stores
        are built in that order over the stored data (the tasks are checked for
        deadlines on the way), then ensureDefaultPriorityLevels runs. The
        priority store never keeps the loaded levels, so every session starts
        with exactly the four levels Default (the default of record), High, Low
        and Urgent. */
    constructor (storedReminders: seq<Reminder>, storedTasks: seq<Task>, storedCategories: seq<Category>,
                 storedLevels: seq<PriorityLevel>, today: Date, ids: StartupIds)
      requires ids.Enough()
      modifies set t | t in storedTasks
      ensures Valid()
      ensures reminderService.reminders == IndexBy(storedReminders, IdOf)
      ensures taskService.tasks == IndexBy(storedTasks, TaskIdOf)
      ensures reminderService.saves == 0
      ensures categoryService.saves == if storedCategories == [] then 1 else 0
      ensures priorityService.saves == |LevelNames|
      ensures categoryService.categories
        == IndexBy(if storedCategories == [] then DefaultCategories(ids.categories) else storedCategories, CategoryIdOf)
      ensures |priorityService.priorityLevels| == |LevelNames|
      ensures Named(priorityService.priorityLevels) == WithDefaults(map[], ids.levels, 0)
      ensures Named(priorityService.priorityLevels).Values
        == {("Default", true), ("High", false), ("Low", false), ("Urgent", false)}
      ensures ids.levels[0] in priorityService.priorityLevels
        && priorityService.defaultPriority == priorityService.priorityLevels[ids.levels[0]]
      ensures forall k :: k in priorityService.priorityLevels ==>
        (priorityService.priorityLevels[k].isDefault <==> k == ids.levels[0])
    {
      var reminders, tasks, categories := LoadStores(storedReminders, storedTasks, storedCategories, today, ids.categories);
      var priorities := LoadPriorities(tasks, storedLevels, ids.loadedLevel, ids.normalLevel);
      reminderService := reminders;
      taskService := tasks;
      categoryService := categories;
      priorityService := priorities;
      new;
      EnsureDefaultPriorityLevels(ids.levels);
      DefaultLevelsShape(ids.levels, map[]);
    }

    /** ServiceManager.ensureDefaultPriorityLevels, with `levelIds` for the
        UUIDs of the levels it may create. With no level it creates Default
        (as the default of record), High, Low and Urgent; with one it creates
        the last three; with two or more it changes nothing. */
    method EnsureDefaultPriorityLevels(levelIds: seq<Id>)
      requires Valid()
      requires |levelIds| == |LevelNames|
      requires forall i, j :: 0 <= i < j < |levelIds| ==> levelIds[i] != levelIds[j]
      modifies priorityService`priorityLevels, priorityService`defaultPriority, priorityService`saves
      ensures Valid()
      ensures |old(priorityService.priorityLevels)| >= 2 ==>
        && priorityService.priorityLevels == old(priorityService.priorityLevels)
        && priorityService.defaultPriority == old(priorityService.defaultPriority)
        && priorityService.saves == old(priorityService.saves)
      ensures |old(priorityService.priorityLevels)| <= 1 ==>
        var first := if old(priorityService.priorityLevels) == map[] then 0 else 1;
        && Named(priorityService.priorityLevels) == WithDefaults(old(Named(priorityService.priorityLevels)), levelIds, first)
        && priorityService.defaultPriority
             == (if first == 0 then priorityService.priorityLevels[levelIds[0]] else old(priorityService.defaultPriority))
        && priorityService.saves == old(priorityService.saves) + |LevelNames| - first
    {
      if |priorityService.priorityLevels| <= 1 {
        var first := if priorityService.priorityLevels == map[] then 0 else 1;
        CreateDefaultLevels(priorityService, levelIds, first);
      }
    }
  }

  /** The calls of ensureDefaultPriorityLevels once it has decided to create
      levels: Default first when `first` is 0, then High, Low and Urgent. */
  method CreateDefaultLevels(priorities: PriorityService, levelIds: seq<Id>, first: nat)
    requires priorities.Valid()
    requires |levelIds| == |LevelNames| && first <= 1
    requires forall i, j :: 0 <= i < j < |levelIds| ==> levelIds[i] != levelIds[j]
    modifies priorities`priorityLevels, priorities`defaultPriority, priorities`saves
    ensures priorities.Valid()
    ensures Named(priorities.priorityLevels) == WithDefaults(old(Named(priorities.priorityLevels)), levelIds, first)
    ensures first == 0 ==>
      levelIds[0] in priorities.priorityLevels && priorities.defaultPriority == priorities.priorityLevels[levelIds[0]]
    ensures first == 1 ==> priorities.defaultPriority == old(priorities.defaultPriority)
    ensures priorities.saves == old(priorities.saves) + |LevelNames| - first
  {
    if first == 0 {
      var d := priorities.CreatePriorityLevel(levelIds[0], "Default", true);
    }
    var high := priorities.CreatePriorityLevel(levelIds[1], "High", false);
    var low := priorities.CreatePriorityLevel(levelIds[2], "Low", false);
    var urgent := priorities.CreatePriorityLevel(levelIds[3], "Urgent", false);
  }
}
