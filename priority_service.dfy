/** The priority store: the priority levels by id and the level of record that
    serves as the default, which can be neither edited nor deleted; deleting
    another level first moves its tasks to the default. */
module PriorityStore {
  import opened Base
  import opened PriorityLevels
  import opened Dates
  import opened Categories
  import opened Tasks
  import opened Reminders
  import opened ReminderStore
  import opened TaskStore

  /** The check deletePriorityLevel applies to a task's priority. */
  predicate UsesLevel(priority: PriorityLevel?, levelId: Id) {
    priority != null && priority.id == levelId
  }

  /** The level deletePriorityLevel gives a task of level `levelId`. */
  function Reassigned(priority: PriorityLevel?, levelId: Id, default: PriorityLevel?): PriorityLevel? {
    if UsesLevel(priority, levelId) then default else priority
  }

  /** The tasks of level `levelId`, by their priorities `prio0`, that are no
      longer in `todo`. */
  function Moved(prio0: map<Task, PriorityLevel?>, todo: set<Task>, levelId: Id): set<Task> {
    set t | t in prio0 && t !in todo && UsesLevel(prio0[t], levelId)
  }

  /** The ids of the completed ones among `moved`, by their fields `fixed0`. */
  function ClearedIds(moved: set<Task>, fixed0: map<Task, TaskFields>): set<Id> {
    set t | t in moved && t in fixed0 && fixed0[t].status == Completed :: t.id
  }

  lemma MovedStep(prio0: map<Task, PriorityLevel?>, todo: set<Task>, levelId: Id, task: Task)
    requires task in todo && task in prio0
    ensures task !in Moved(prio0, todo, levelId)
    ensures Moved(prio0, todo - {task}, levelId)
      == if UsesLevel(prio0[task], levelId) then Moved(prio0, todo, levelId) + {task} else Moved(prio0, todo, levelId)
    ensures |Moved(prio0, todo - {task}, levelId)|
      == if UsesLevel(prio0[task], levelId) then |Moved(prio0, todo, levelId)| + 1 else |Moved(prio0, todo, levelId)|
  {
    assert Moved(prio0, todo - {task}, levelId)
      == if UsesLevel(prio0[task], levelId) then Moved(prio0, todo, levelId) + {task} else Moved(prio0, todo, levelId);
  }

  /** The priorities the loop of deletePriorityLevel has produced, from the
      priorities `prio0` it started from, once only `todo` is left to visit. */
  function Expected(prio0: map<Task, PriorityLevel?>, todo: set<Task>, levelId: Id, default: PriorityLevel?)
    : map<Task, PriorityLevel?>
  {
    map t | t in prio0 :: if t in todo then prio0[t] else Reassigned(prio0[t], levelId, default)
  }

  lemma ExpectedStep(prio0: map<Task, PriorityLevel?>, todo: set<Task>, levelId: Id, default: PriorityLevel?, task: Task)
    requires task in todo && task in prio0
    ensures Expected(prio0, todo - {task}, levelId, default)
      == Expected(prio0, todo, levelId, default)[task := Reassigned(prio0[task], levelId, default)]
  {
  }

  /** The completed ones among `moved`, by their fields `fixed0`. */
  function ClearedTasks(moved: set<Task>, fixed0: map<Task, TaskFields>): set<Task> {
    set t | t in moved && t in fixed0 && fixed0[t].status == Completed
  }

  /** One more moved task adds one to the completed ones exactly when it is completed. */
  lemma ClearedCountStep(moved: set<Task>, fixed0: map<Task, TaskFields>, task: Task)
    requires task !in moved && task in fixed0
    ensures |ClearedTasks(moved + {task}, fixed0)|
      == |ClearedTasks(moved, fixed0)| + if fixed0[task].status == Completed then 1 else 0
  {
    if fixed0[task].status == Completed {
      assert ClearedTasks(moved + {task}, fixed0) == ClearedTasks(moved, fixed0) + {task};
    } else {
      assert ClearedTasks(moved + {task}, fixed0) == ClearedTasks(moved, fixed0);
    }
  }

  /** Deleting the reminders of one more moved task, if it was completed,
      keeps the reminders those of the tasks moved so far that were not. */
  lemma ClearedStep(reminders0: map<Id, Reminder>, moved: set<Task>, fixed0: map<Task, TaskFields>,
                    task: Task, before: map<Id, Reminder>)
    requires task in fixed0
    requires before == WithoutTasks(reminders0, ClearedIds(moved, fixed0))
    ensures WithoutTasks(before, if fixed0[task].status == Completed then {task.id} else {})
      == WithoutTasks(reminders0, ClearedIds(moved + {task}, fixed0))
  {
    var extra := if fixed0[task].status == Completed then {task.id} else {};
    assert ClearedIds(moved + {task}, fixed0) == ClearedIds(moved, fixed0) + extra;
    WithoutTasksCompose(reminders0, ClearedIds(moved, fixed0), extra);
  }

  /** The fields of a task that deletePriorityLevel leaves alone: all but its priority. */
  datatype TaskFields = TaskFields(title: string, description: string, status: TaskStatus,
                                   deadline: Option<Date>, category: Option<Category>)

  function FieldsOf(t: Task): TaskFields
    reads t
  {
    TaskFields(t.title, t.description, t.status, t.deadline, t.category)
  }

  /** The name and default flag of each level of `m`, by id. */
  function Named(m: map<Id, PriorityLevel>): (r: map<Id, (string, bool)>)
    reads m.Values
    ensures r.Keys == m.Keys
  {
    map k | k in m :: (m[k].name, m[k].isDefault)
  }

  const DefaultLevelImmutable := "Cannot modify default priority level"
  const DefaultLevelUndeletable := "Cannot delete default priority level"

  class PriorityService {
    var priorityLevels: map<Id, PriorityLevel>
    var defaultPriority: PriorityLevel?
    /** Number of times the priority levels were written to storage. */
    var saves: nat
    const taskService: TaskService

    /** Every level is stored under its own id, and the task store is valid. */
    ghost predicate Valid()
      reads this, taskService, taskService.reminderService
    {
      (forall k :: k in priorityLevels ==> priorityLevels[k].id == k) && taskService.Valid()
    }

    /** `new PriorityService(persistence, taskService)`. The loaded levels are
        never put into the map, which stays empty; only when storage holds no
        level at all is a "Normal" default level created and kept as the default
        of record. */
    constructor (taskService: TaskService, loaded: seq<PriorityLevel>, id: Id)
      requires taskService.Valid()
      ensures Valid() && this.taskService == taskService
      ensures priorityLevels == map[]
      ensures loaded == [] ==>
        && defaultPriority != null && fresh(defaultPriority) && defaultPriority.id == id
        && defaultPriority.name == "Normal" && defaultPriority.isDefault && saves == 1
      ensures loaded != [] ==> defaultPriority == null && saves == 0
    {
      this.taskService := taskService;
      priorityLevels := map[];
      saves := 0;
      if loaded == [] {
        defaultPriority := new PriorityLevel(id, "Normal", true);
        saves := 1;
      } else {
        defaultPriority := null;
      }
    }

    /** PriorityService.getDefaultPriorityLevel: the level of record as it is,
        never looked up in the map, so possibly null or no longer stored. */
    function GetDefaultPriorityLevel(): (r: PriorityLevel?)
      reads this
      ensures r == defaultPriority
    {
      defaultPriority
    }

    /** PriorityService.getAllPriorityLevels. */
    function GetAllPriorityLevels(): (r: set<PriorityLevel>)
      reads this
      ensures forall id :: id in priorityLevels ==> priorityLevels[id] in r
      ensures forall level :: level in r ==> exists id :: id in priorityLevels && priorityLevels[id] == level
    {
      priorityLevels.Values
    }

    /** PriorityService.getPriorityLevelById: the level stored under `id`, or
        none (null); a level found carries that id. */
    function GetPriorityLevelById(id: Id): (r: Option<PriorityLevel>)
      reads this, taskService, taskService.reminderService
      requires Valid()
      ensures r.Some? <==> id in priorityLevels
      ensures r.Some? ==> r.value.id == id && r.value in GetAllPriorityLevels()
    {
      if id in priorityLevels then Some(priorityLevels[id]) else None
    }

    /** PriorityService.createPriorityLevel with `id` for the new level's UUID:
        exactly one entry is added; a level created as default becomes the
        default of record, otherwise the default of record is unchanged. */
    method CreatePriorityLevel(id: Id, name: string, isDefault: bool) returns (level: PriorityLevel)
      requires Valid()
      modifies this`priorityLevels, this`defaultPriority, this`saves
      ensures Valid()
      ensures fresh(level) && level.id == id && level.name == name && level.isDefault == isDefault
      ensures priorityLevels == old(priorityLevels)[id := level]
      ensures Named(priorityLevels) == old(Named(priorityLevels))[id := (name, isDefault)]
      ensures GetDefaultPriorityLevel() == if isDefault then level else old(defaultPriority)
      ensures saves == old(saves) + 1
    {
      level := new PriorityLevel(id, name, isDefault);
      priorityLevels := priorityLevels[level.id := level];
      if isDefault {
        defaultPriority := level;
      }
      saves := saves + 1;
    }

    /** PriorityService.updatePriorityLevel: a level flagged default is refused
        and nothing changes; any other level is stored under its id. */
    method UpdatePriorityLevel(level: PriorityLevel) returns (r: Outcome)
      requires Valid()
      modifies this`priorityLevels, this`saves
      ensures Valid()
      ensures level.isDefault ==>
        r == Fail(IllegalArgument(DefaultLevelImmutable)) && priorityLevels == old(priorityLevels) && saves == old(saves)
      ensures !level.isDefault ==>
        r == Pass && priorityLevels == old(priorityLevels)[level.id := level] && saves == old(saves) + 1
    {
      if level.isDefault {
        return Fail(IllegalArgument(DefaultLevelImmutable));
      }
      priorityLevels := priorityLevels[level.id := level];
      saves := saves + 1;
      r := Pass;
    }

    /** The stored tasks whose priority is the level `levelId`. */
    function Users(levelId: Id): (r: set<Task>)
      reads this, taskService, taskService.tasks.Values
      ensures r <= taskService.tasks.Values
    {
      set t | t in taskService.tasks.Values && UsesLevel(t.priority, levelId)
    }

    /** The completed tasks among those users. */
    function CompletedUsers(levelId: Id): (r: set<Task>)
      reads this, taskService, taskService.tasks.Values
      ensures r <= Users(levelId)
    {
      set t | t in Users(levelId) && t.status == Completed
    }

    /** The ids of the completed tasks among those users. */
    function CompletedUserIds(levelId: Id): set<Id>
      reads this, taskService, taskService.tasks.Values
    {
      set t | t in CompletedUsers(levelId) :: t.id
    }

    /** PriorityService.deletePriorityLevel. An unknown id is ignored; the
        default level is refused and nothing changes. Otherwise every task on
        that level is moved to the default level of record and stored again
        through updateTask (which deletes the reminders of the completed ones),
        tasks on other levels keep theirs, and the level is removed. */
    method DeletePriorityLevel(levelId: Id) returns (r: Outcome)
      requires Valid()
      modifies this`priorityLevels, this`saves
      modifies taskService`tasks, taskService`saves, taskService.reminderService, taskService.tasks.Values
      ensures Valid()
      ensures levelId !in old(priorityLevels) ==>
        && r == Pass && priorityLevels == old(priorityLevels) && saves == old(saves)
        && taskService.tasks == old(taskService.tasks) && taskService.saves == old(taskService.saves)
        && taskService.reminderService.reminders == old(taskService.reminderService.reminders)
        && taskService.reminderService.saves == old(taskService.reminderService.saves)
        && forall t :: t in taskService.tasks.Values ==> t.priority == old(t.priority)
      ensures levelId in old(priorityLevels) && old(priorityLevels[levelId].isDefault) ==>
        && r == Fail(IllegalArgument(DefaultLevelUndeletable))
        && priorityLevels == old(priorityLevels) && saves == old(saves)
        && taskService.tasks == old(taskService.tasks) && taskService.saves == old(taskService.saves)
        && taskService.reminderService.reminders == old(taskService.reminderService.reminders)
        && taskService.reminderService.saves == old(taskService.reminderService.saves)
        && forall t :: t in taskService.tasks.Values ==> t.priority == old(t.priority)
      ensures levelId in old(priorityLevels) && !old(priorityLevels[levelId].isDefault) ==>
        && r == Pass
        && priorityLevels == old(priorityLevels) - {levelId} && saves == old(saves) + 1
        && taskService.tasks == old(taskService.tasks)
        && (forall t :: t in taskService.tasks.Values ==>
              t.priority == Reassigned(old(t.priority), levelId, old(defaultPriority)))
        && taskService.saves == old(taskService.saves) + |old(Users(levelId))|
        && taskService.reminderService.reminders
             == WithoutTasks(old(taskService.reminderService.reminders), old(CompletedUserIds(levelId)))
        && taskService.reminderService.saves == old(taskService.reminderService.saves) + |old(CompletedUsers(levelId))|
      ensures defaultPriority == old(defaultPriority)
      ensures forall t :: t in taskService.tasks.Values ==>
        && t.title == old(t.title) && t.description == old(t.description)
        && t.status == old(t.status) && t.deadline == old(t.deadline) && t.category == old(t.category)
      ensures levelId in old(priorityLevels) && r == Pass && !UsesLevel(defaultPriority, levelId) ==>
        forall t :: t in taskService.tasks.Values ==> !UsesLevel(t.priority, levelId)
    {
      if levelId !in priorityLevels {
        return Pass;
      }
      if priorityLevels[levelId].isDefault {
        return Fail(IllegalArgument(DefaultLevelUndeletable));
      }
      MoveUsersToDefault(levelId);
      priorityLevels := priorityLevels - {levelId};
      saves := saves + 1;
      r := Pass;
    }
    /** The priorities of the stored tasks. */
    function Priorities(): map<Task, PriorityLevel?>
      reads this, taskService, taskService.tasks.Values
    {
      map t | t in taskService.tasks.Values :: t.priority
    }

    /** The fields of the stored tasks that deletePriorityLevel leaves alone. */
    function Fields(): map<Task, TaskFields>
      reads this, taskService, taskService.tasks.Values
    {
      map t | t in taskService.tasks.Values :: FieldsOf(t)
    }

    /** The state of the loop of deletePriorityLevel with `todo` still to
        visit, against the priorities `prio0`, the other fields `fixed0` and the
        reminders `reminders0` it started from: the visited users of the level
        are on the default level and were each stored once, the reminders of
        the completed ones are gone, and nothing else has changed. */
    ghost predicate Progress(levelId: Id, todo: set<Task>, prio0: map<Task, PriorityLevel?>,
                             fixed0: map<Task, TaskFields>, reminders0: map<Id, Reminder>, saves0: nat,
                             reminderSaves0: nat)
      reads this, taskService, taskService.reminderService, taskService.tasks.Values
    {
      && Valid()
      && todo <= taskService.tasks.Values == prio0.Keys
      && Fields() == fixed0
      && Priorities() == Expected(prio0, todo, levelId, defaultPriority)
      && taskService.saves == saves0 + |Moved(prio0, todo, levelId)|
      && taskService.reminderService.reminders
           == WithoutTasks(reminders0, ClearedIds(Moved(prio0, todo, levelId), fixed0))
      && taskService.reminderService.saves == reminderSaves0 + |ClearedTasks(Moved(prio0, todo, levelId), fixed0)|
    }

    /** The loop of deletePriorityLevel: every stored task on level `levelId`
        gets the default level of record and is stored again through updateTask. */
    method MoveUsersToDefault(levelId: Id)
      requires Valid()
      modifies taskService`tasks, taskService`saves, taskService.reminderService, taskService.tasks.Values
      ensures Valid() && taskService.tasks == old(taskService.tasks)
      ensures forall t :: t in taskService.tasks.Values ==>
        t.priority == Reassigned(old(t.priority), levelId, defaultPriority)
      ensures forall t :: t in taskService.tasks.Values ==>
        && t.title == old(t.title) && t.description == old(t.description)
        && t.status == old(t.status) && t.deadline == old(t.deadline) && t.category == old(t.category)
      ensures taskService.saves == old(taskService.saves) + |old(Users(levelId))|
      ensures taskService.reminderService.reminders
        == WithoutTasks(old(taskService.reminderService.reminders), old(CompletedUserIds(levelId)))
      ensures taskService.reminderService.saves == old(taskService.reminderService.saves) + |old(CompletedUsers(levelId))|
    {
      ghost var prio0 := Priorities();
      ghost var fixed0 := Fields();
      ghost var users := Users(levelId);
      ghost var completed := CompletedUserIds(levelId);
      assert Moved(prio0, {}, levelId) == users;
      assert ClearedIds(users, fixed0) == completed;
      assert ClearedTasks(users, fixed0) == CompletedUsers(levelId);
      var todo := taskService.GetAllTasks();
      assert Moved(prio0, todo, levelId) == {};
      assert ClearedTasks({}, fixed0) == {};
      assert Expected(prio0, todo, levelId, defaultPriority) == prio0;
      assert WithoutTasks(taskService.reminderService.reminders, {}) == taskService.reminderService.reminders;
      while todo != {}
        invariant taskService.tasks == old(taskService.tasks)
        invariant Progress(levelId, todo, prio0, fixed0, old(taskService.reminderService.reminders), old(taskService.saves), old(taskService.reminderService.saves))
        decreases todo
      {
        var task :| task in todo;
        if task.priority != null && task.priority.id == levelId {
          MoveUser(levelId, task, todo, prio0, fixed0, old(taskService.reminderService.reminders), old(taskService.saves), old(taskService.reminderService.saves));
        } else {
          SkipOtherLevel(levelId, task, todo, prio0, fixed0, old(taskService.reminderService.reminders), old(taskService.saves), old(taskService.reminderService.saves));
        }
        todo := todo - {task};
      }
      forall t | t in taskService.tasks.Values
        ensures t.priority == Reassigned(old(t.priority), levelId, defaultPriority)
        ensures FieldsOf(t) == old(FieldsOf(t))
      {
        assert t in Priorities() && t in Fields();
      }
    }

    /** A pass of that loop over a task of another level changes nothing. */
    lemma SkipOtherLevel(levelId: Id, task: Task, todo: set<Task>, prio0: map<Task, PriorityLevel?>,
                         fixed0: map<Task, TaskFields>, reminders0: map<Id, Reminder>, saves0: nat,
                         reminderSaves0: nat)
      requires task in todo && !UsesLevel(task.priority, levelId)
      requires Progress(levelId, todo, prio0, fixed0, reminders0, saves0, reminderSaves0)
      ensures Progress(levelId, todo - {task}, prio0, fixed0, reminders0, saves0, reminderSaves0)
    {
      MovedStep(prio0, todo, levelId, task);
      ExpectedStep(prio0, todo, levelId, defaultPriority, task);
      assert Priorities()[task] == prio0[task];
      assert Priorities()[task := Reassigned(prio0[task], levelId, defaultPriority)] == Priorities();
    }

    /** A pass of that loop over a user of level `levelId`: the task moves to
        the default level and is stored again. */
    method MoveUser(levelId: Id, task: Task, ghost todo: set<Task>, ghost prio0: map<Task, PriorityLevel?>,
                    ghost fixed0: map<Task, TaskFields>, ghost reminders0: map<Id, Reminder>, ghost saves0: nat,
                    ghost reminderSaves0: nat)
      requires task in todo && UsesLevel(task.priority, levelId)
      requires Progress(levelId, todo, prio0, fixed0, reminders0, saves0, reminderSaves0)
      modifies task, taskService`tasks, taskService`saves, taskService.reminderService
      ensures taskService.tasks == old(taskService.tasks)
      ensures Progress(levelId, todo - {task}, prio0, fixed0, reminders0, saves0, reminderSaves0)
    {
      ghost var moved := Moved(prio0, todo, levelId);
      MovedStep(prio0, todo, levelId, task);
      ExpectedStep(prio0, todo, levelId, defaultPriority, task);
      assert Priorities()[task] == prio0[task];
      assert Fields()[task] == fixed0[task];
      ghost var before := taskService.reminderService.reminders;
      MoveToDefault(task);
      ClearedStep(reminders0, moved, fixed0, task, before);
      ClearedCountStep(moved, fixed0, task);
      assert Priorities() == Expected(prio0, todo - {task}, levelId, defaultPriority);
    }

    /** One step of that loop: `task.setPriority(defaultPriority); taskService.updateTask(task)`
        on a stored task. */
    method MoveToDefault(task: Task)
      requires Valid() && task in taskService.tasks.Values
      modifies task, taskService`tasks, taskService`saves, taskService.reminderService
      ensures Valid() && taskService.tasks == old(taskService.tasks)
      ensures Priorities() == old(Priorities())[task := defaultPriority]
      ensures Fields() == old(Fields())
      ensures taskService.saves == old(taskService.saves) + 1
      ensures taskService.reminderService.reminders ==
        WithoutTasks(old(taskService.reminderService.reminders), if old(task.status) == Completed then {task.id} else {})
      ensures taskService.reminderService.saves == old(taskService.reminderService.saves) + if old(task.status) == Completed then 1 else 0
    {
      assert task.status != Completed ==> WithoutTasks(old(taskService.reminderService.reminders), {}) == old(taskService.reminderService.reminders);
      ghost var k :| k in taskService.tasks && taskService.tasks[k] == task;
      assert taskService.tasks[task.id := task] == taskService.tasks;
      task.SetPriority(defaultPriority);
      taskService.UpdateTask(task);
    }
  }
}
