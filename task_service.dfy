/** The task store: the tasks by id, the batched deadline check, the cascades
    from a task into its reminders, and the queries behind the task table,
    its filters and the summary counters. */
module TaskStore {
  import opened Base
  import opened Dates
  import opened Text
  import opened Categories
  import opened PriorityLevels
  import opened Tasks
  import opened Reminders
  import opened ReminderStore

  function TaskIdOf(t: Task): Id {
    t.id
  }

  /** The title filter of searchTasks: no filter, or a case-insensitive substring. */
  predicate TitleMatches(title: string, query: Option<string>) {
    query.None? || Contains(Lower(title), Lower(query.value))
  }

  /** A deadline on or before `limit` (`!deadline.isAfter(limit)`). */
  predicate DueBy(deadline: Option<Date>, limit: Date) {
    deadline.Some? && !After(deadline.value, limit)
  }

  /** What the filters of searchTasks do with one task. */
  datatype Verdict = Kept | Dropped | Throws

  /** The filters of searchTasks on a task with the given title, category and
      priority, in their order: title, then category, then priority. */
  function Filter(title: string, category: Option<Category>, priority: PriorityLevel?,
                  titleQuery: Option<string>, categoryQuery: Option<Category>, priorityQuery: Option<PriorityLevel>)
    : Verdict
  {
    if !TitleMatches(title, titleQuery) then Dropped
    else if categoryQuery.Some? && category.None? then Throws
    else if categoryQuery.Some? && category != categoryQuery then Dropped
    else if priorityQuery.Some? && priority == null then Throws
    else if priorityQuery.Some? && priority != priorityQuery.value then Dropped
    else Kept
  }

  /** The tasks of `m` are stored under their own ids. */
  ghost predicate KeyedById(m: map<Id, Task>) {
    forall k :: k in m ==> m[k].id == k
  }

  /** In a map keyed by id, a set of keys and the tasks stored under them are
      equally many. */
  lemma {:induction false} KeyedImageCardinality(m: map<Id, Task>, keys: set<Id>)
    requires KeyedById(m) && keys <= m.Keys
    ensures |set k | k in keys :: m[k]| == |keys|
    decreases keys
  {
    if keys != {} {
      var x :| x in keys;
      var rest := keys - {x};
      KeyedImageCardinality(m, rest);
      assert (set k | k in keys :: m[k]) == (set k | k in rest :: m[k]) + {m[x]};
      assert m[x] !in (set k | k in rest :: m[k]);
    }
  }

  class TaskService {
    var tasks: map<Id, Task>
    /** Number of times the tasks were written to storage. */
    var saves: nat
    const reminderService: ReminderService

    /** Every task is stored under its own id, and the reminder store is valid. */
    ghost predicate Valid()
      reads this, reminderService
    {
      KeyedById(tasks) && reminderService.Valid()
    }

    /** Some task is overdue but not yet marked DELAYED. */
    predicate HasPendingDelay(today: Date)
      reads this, tasks.Values
    {
      exists t :: t in tasks.Values && t.status != Delayed && t.IsDelayed(today)
    }

    /** `new TaskService(persistence, reminderService)`: the stored tasks are
        loaded through loadTasks. */
    constructor (reminderService: ReminderService, loaded: seq<Task>, today: Date)
      requires reminderService.Valid()
      modifies set t | t in loaded
      ensures Valid() && this.reminderService == reminderService
      ensures tasks == IndexBy(loaded, TaskIdOf)
      ensures forall t :: t in tasks.Values ==> t.status == StatusAfterCheck(old(t.status), t.deadline, today)
      ensures forall t :: t in tasks.Values ==>
        t.deadline == old(t.deadline) && t.title == old(t.title) && t.description == old(t.description)
        && t.category == old(t.category) && t.priority == old(t.priority)
      ensures forall t :: t in loaded && t !in tasks.Values ==> unchanged(t)
      ensures !HasPendingDelay(today)
      ensures saves == if exists t :: t in tasks.Values && old(t.status) != Delayed && Overdue(old(t.status), t.deadline, today)
                       then 1 else 0
    {
      this.reminderService := reminderService;
      tasks := map[];
      saves := 0;
      new;
      LoadTasks(loaded, today);
    }

    /** TaskService.loadTasks: the stored tasks are put into the map one after
        the other, then the deadlines are checked. */
    method LoadTasks(loaded: seq<Task>, today: Date)
      requires tasks == map[] && saves == 0 && reminderService.Valid()
      modifies this`tasks, this`saves, set t | t in loaded
      ensures Valid()
      ensures tasks == IndexBy(loaded, TaskIdOf)
      ensures forall t :: t in tasks.Values ==> t.status == StatusAfterCheck(old(t.status), t.deadline, today)
      ensures forall t :: t in tasks.Values ==>
        t.deadline == old(t.deadline) && t.title == old(t.title) && t.description == old(t.description)
        && t.category == old(t.category) && t.priority == old(t.priority)
      ensures forall t :: t in loaded && t !in tasks.Values ==> unchanged(t)
      ensures !HasPendingDelay(today)
      ensures saves == if exists t :: t in tasks.Values && old(t.status) != Delayed && Overdue(old(t.status), t.deadline, today)
                       then 1 else 0
    {
      PutAll(loaded);
      assert tasks.Values <= set t | t in loaded;
      ghost var pending := HasPendingDelay(today);
      assert pending <==> exists t :: t in tasks.Values && old(t.status) != Delayed && Overdue(old(t.status), t.deadline, today);
      CheckDeadlines(today);
    }

    /** The first half of TaskService.loadTasks: each loaded task is put into
        the map under its id, a later one replacing an earlier one. */
    method PutAll(loaded: seq<Task>)
      requires tasks == map[] && reminderService.Valid()
      modifies this`tasks
      ensures tasks == IndexBy(loaded, TaskIdOf) && Valid()
    {
      var i := 0;
      while i < |loaded|
        invariant 0 <= i <= |loaded|
        invariant tasks == IndexBy(loaded[..i], TaskIdOf)
      {
        assert loaded[..i + 1][..i] == loaded[..i];
        tasks := tasks[loaded[i].id := loaded[i]];
        i := i + 1;
      }
      assert loaded[..|loaded|] == loaded;
    }

    /** TaskService.checkDeadlines with `today` for LocalDate.now(): every task
        that is not completed and whose deadline has passed becomes DELAYED,
        every other task keeps its status, and the tasks are saved once, only
        if some status changed; run again the same day it changes nothing. */
    method CheckDeadlines(today: Date)
      requires Valid()
      modifies tasks.Values, this`saves
      ensures Valid()
      ensures forall t :: t in tasks.Values ==> t.status == StatusAfterCheck(old(t.status), t.deadline, today)
      ensures forall t :: t in tasks.Values ==>
        t.deadline == old(t.deadline) && t.title == old(t.title) && t.description == old(t.description)
        && t.category == old(t.category) && t.priority == old(t.priority)
      ensures forall t :: t in tasks.Values && t.IsDelayed(today) ==> t.status == Delayed
      ensures !HasPendingDelay(today)
      ensures saves == old(saves) + if old(HasPendingDelay(today)) then 1 else 0
      ensures !old(HasPendingDelay(today)) ==> forall t :: t in tasks.Values ==> t.status == old(t.status)
    {
      var todo := tasks.Values;
      var changes := false;
      while todo != {}
        invariant todo <= tasks.Values
        invariant forall t :: t in tasks.Values && t !in todo ==>
          t.status == StatusAfterCheck(old(t.status), t.deadline, today)
        invariant forall t :: t in todo ==> t.status == old(t.status)
        invariant forall t :: t in tasks.Values ==>
          t.deadline == old(t.deadline) && t.title == old(t.title) && t.description == old(t.description)
          && t.category == old(t.category) && t.priority == old(t.priority)
        invariant changes <==>
          exists t :: t in tasks.Values && t !in todo && old(t.status) != Delayed && Overdue(old(t.status), t.deadline, today)
        invariant saves == old(saves)
        decreases todo
      {
        var t :| t in todo;
        if t.status != Completed && t.deadline.Some? && Before(t.deadline.value, today) && t.status != Delayed {
          t.SetStatus(Delayed);
          changes := true;
        }
        todo := todo - {t};
      }
      if changes {
        saves := saves + 1;
      }
    }

    /** TaskService.createTask with `id` for the new task's UUID and `category`
        None for a null category: a new OPEN task with exactly the given fields
        is stored under its id; nothing else changes. */
    method CreateTask(id: Id, title: string, description: string, category: Option<Category>,
                      priority: PriorityLevel?, deadline: Option<Date>) returns (task: Task)
      requires Valid()
      modifies this`tasks, this`saves
      ensures Valid()
      ensures fresh(task) && task.id == id && task.status == Open
      ensures task.title == title && task.description == description && task.category == category
      ensures task.priority == priority && task.deadline == deadline
      ensures tasks == old(tasks)[id := task]
      ensures id !in old(tasks) ==> |tasks| == |old(tasks)| + 1
      ensures saves == old(saves) + 1
    {
      task := new Task(id, title, description, category, priority, deadline);
      tasks := tasks[task.id := task];
      saves := saves + 1;
    }

    /** TaskService.updateTask: an upsert under the task's id, every other entry
        unchanged; storing a COMPLETED task first deletes all its reminders,
        any other status leaves the reminders alone. */
    method UpdateTask(task: Task)
      requires Valid()
      modifies this`tasks, this`saves, reminderService
      ensures Valid()
      ensures tasks == old(tasks)[task.id := task]
      ensures saves == old(saves) + 1
      ensures task.status == Completed ==>
        && reminderService.reminders == WithoutTasks(old(reminderService.reminders), {task.id})
        && reminderService.NoRemindersFor(task.id)
        && reminderService.saves == old(reminderService.saves) + 1
      ensures task.status != Completed ==>
        && reminderService.reminders == old(reminderService.reminders)
        && reminderService.saves == old(reminderService.saves)
    {
      if task.status == Completed {
        reminderService.DeleteRemindersForTask(task.id);
      }
      tasks := tasks[task.id := task];
      saves := saves + 1;
    }

    /** TaskService.deleteTask: removes that id only and then every reminder of
        that task, also when no task has that id. */
    method DeleteTask(taskId: Id)
      requires Valid()
      modifies this`tasks, this`saves, reminderService
      ensures Valid()
      ensures tasks == old(tasks) - {taskId}
      ensures reminderService.reminders == WithoutTasks(old(reminderService.reminders), {taskId})
      ensures reminderService.NoRemindersFor(taskId)
      ensures saves == old(saves) + 1 && reminderService.saves == old(reminderService.saves) + 1
    {
      tasks := tasks - {taskId};
      reminderService.DeleteRemindersForTask(taskId);
      saves := saves + 1;
    }

    /** TaskService.getAllTasks: every stored task, and only those. */
    function GetAllTasks(): (r: set<Task>)
      reads this
      ensures forall id :: id in tasks ==> tasks[id] in r
      ensures forall t :: t in r ==> exists id :: id in tasks && tasks[id] == t
    {
      tasks.Values
    }

    /** TaskService.getTaskById: the task stored under `id`, or none (null). */
    function GetTaskById(id: Id): (r: Option<Task>)
      reads this
      ensures r.Some? <==> id in tasks
      ensures r.Some? ==> r.value in GetAllTasks()
      ensures r.Some? && KeyedById(tasks) ==> r.value.id == id
    {
      if id in tasks then Some(tasks[id]) else None
    }

    /** TaskService.getUncompletedTasks: the stored tasks that are not completed. */
    function UncompletedTasks(): (r: set<Task>)
      reads this, tasks.Values
      ensures r <= tasks.Values
      ensures forall t :: t in tasks.Values ==> (t in r <==> t.status != Completed)
    {
      set t | t in tasks.Values && t.status != Completed
    }

    /** Some stored task has a null category. */
    predicate HasUncategorised()
      reads this, tasks.Values
    {
      exists t :: t in tasks.Values && t.category.None?
    }

    /** A task on which the filters of searchTasks throw: it passes the title
        filter and meets a given category filter with a null category, or passes
        the category filter and meets a given priority filter with a null priority. */
    predicate SearchThrowsOn(t: Task, title: Option<string>, category: Option<Category>, priority: Option<PriorityLevel>)
      reads t
    {
      && TitleMatches(t.title, title)
      && (|| (category.Some? && t.category.None?)
          || ((category.None? || t.category == category) && priority.Some? && t.priority == null))
    }

    /** TaskService.searchTasks: the stored tasks that pass every given filter;
        a null filter passes every task, the title filter is a case-insensitive
        substring test, category and priority are compared with equals. The
        filters are applied in that order, so a task that passes the title
        filter and reaches a given category or priority filter with a null
        category or priority of its own throws a NullPointerException. */
    function SearchTasks(title: Option<string>, category: Option<Category>, priority: Option<PriorityLevel>)
      : (r: Result<set<Task>>)
      reads this, tasks.Values
      ensures r.Failure? <==> exists t :: t in tasks.Values && SearchThrowsOn(t, title, category, priority)
      ensures r.Failure? ==> r.error == NullPointer
      ensures r.Success? ==> r.value <= tasks.Values
      ensures r.Success? ==> forall t :: t in tasks.Values ==>
        (t in r.value <==> TitleMatches(t.title, title)
                           && (category.None? || t.category == category)
                           && (priority.None? || t.priority == priority.value))
    {
      if exists t :: t in tasks.Values && Filter(t.title, t.category, t.priority, title, category, priority) == Throws
      then Failure(NullPointer)
      else Success(set t | t in tasks.Values && Filter(t.title, t.category, t.priority, title, category, priority) == Kept)
    }

    /** TaskService.getTasksByCategory: the stored tasks whose category equals
        `category`; any stored task with a null category throws a
        NullPointerException, whatever `category` is. */
    function TasksByCategory(category: Category): (r: Result<set<Task>>)
      reads this, tasks.Values
      ensures r.Failure? <==> HasUncategorised()
      ensures r.Failure? ==> r.error == NullPointer
      ensures r.Success? ==> r.value <= tasks.Values
      ensures r.Success? ==> forall t :: t in tasks.Values ==> (t in r.value <==> t.category == Some(category))
    {
      if HasUncategorised() then Failure(NullPointer)
      else Success(set t | t in tasks.Values && t.category == Some(category))
    }

    /** The ids of the stored tasks that have status `status`. */
    function IdsWithStatus(status: TaskStatus): (r: set<Id>)
      reads this, tasks.Values
      ensures r <= tasks.Keys
    {
      set k | k in tasks && tasks[k].status == status
    }

    /** TaskService.getDelayedTasksCount. */
    function DelayedTasksCount(): (n: nat)
      reads this, tasks.Values
      ensures n <= |tasks|
    {
      SubsetCardinality(IdsWithStatus(Delayed), tasks.Keys);
      |IdsWithStatus(Delayed)|
    }

    /** TaskService.getCompletedTasksCount. */
    function CompletedTasksCount(): (n: nat)
      reads this, tasks.Values
      ensures n <= |tasks|
    {
      SubsetCardinality(IdsWithStatus(Completed), tasks.Keys);
      |IdsWithStatus(Completed)|
    }

    /** The ids of the tasks that are not completed and are due by `limit`. */
    function IdsDueBy(limit: Date): (r: set<Id>)
      reads this, tasks.Values
      ensures r <= tasks.Keys && r !! IdsWithStatus(Completed)
    {
      set k | k in tasks && tasks[k].status != Completed && DueBy(tasks[k].deadline, limit)
    }

    /** TaskService.getTasksWithinDaysCount with `today` for LocalDate.now(): the
        tasks not completed whose deadline is on or before `today + days`; at
        most the number of tasks that are not completed. */
    function TasksWithinDaysCount(days: int, today: Date): (n: nat)
      reads this, tasks.Values
      ensures n + CompletedTasksCount() <= |tasks|
    {
      var limit := PlusDays(today, days);
      DisjointSubsetsCardinality(IdsDueBy(limit), IdsWithStatus(Completed), tasks.Keys);
      |IdsDueBy(limit)|
    }
  }

  /** getAllTasks lists as many tasks as are stored. */
  lemma AllTasksCount(s: TaskService)
    requires KeyedById(s.tasks)
    ensures |s.GetAllTasks()| == |s.tasks|
  {
    assert s.GetAllTasks() == set k | k in s.tasks.Keys :: s.tasks[k];
    KeyedImageCardinality(s.tasks, s.tasks.Keys);
  }

  /** The delayed and the completed tasks together are at most all the tasks. */
  lemma CountersBounded(s: TaskService)
    ensures s.DelayedTasksCount() + s.CompletedTasksCount() <= |s.tasks|
  {
    DisjointSubsetsCardinality(s.IdsWithStatus(Delayed), s.IdsWithStatus(Completed), s.tasks.Keys);
  }

  /** The uncompleted tasks and the completed ones are all the tasks. */
  lemma UncompletedPartition(s: TaskService)
    requires KeyedById(s.tasks)
    ensures |s.UncompletedTasks()| + s.CompletedTasksCount() == |s.tasks|
  {
    var open := set k | k in s.tasks && s.tasks[k].status != Completed;
    var done := s.IdsWithStatus(Completed);
    assert s.UncompletedTasks() == set k | k in open :: s.tasks[k];
    KeyedImageCardinality(s.tasks, open);
    assert open + done == s.tasks.Keys;
    assert open !! done;
  }

  /** Looking further ahead never counts fewer tasks. */
  lemma WithinDaysMonotonic(s: TaskService, today: Date, a: int, b: int)
    requires a <= b
    ensures s.TasksWithinDaysCount(a, today) <= s.TasksWithinDaysCount(b, today)
  {
    PlusDaysMonotonic(today, a, b);
    SubsetCardinality(s.IdsDueBy(PlusDays(today, a)), s.IdsDueBy(PlusDays(today, b)));
  }

  /** Two searches whose filters treat every stored task alike give the same result. */
  lemma SearchSameFilters(s: TaskService, title: Option<string>, category: Option<Category>, priority: Option<PriorityLevel>,
                          title': Option<string>, category': Option<Category>, priority': Option<PriorityLevel>)
    requires forall t :: t in s.tasks.Values ==>
      Filter(t.title, t.category, t.priority, title, category, priority)
      == Filter(t.title, t.category, t.priority, title', category', priority')
    ensures s.SearchTasks(title, category, priority) == s.SearchTasks(title', category', priority')
  {
    var r, r' := s.SearchTasks(title, category, priority), s.SearchTasks(title', category', priority');
    if r.Success? && r'.Success? {
      assert r.value == r'.value;
    }
  }

  /** Without filters the search returns every task. */
  lemma SearchUnfiltered(s: TaskService)
    ensures s.SearchTasks(None, None, None) == Success(s.tasks.Values)
  {
    assert s.SearchTasks(None, None, None).value == s.tasks.Values;
  }

  /** An empty title filter matches every title, like no title filter. */
  lemma SearchEmptyTitle(s: TaskService, category: Option<Category>, priority: Option<PriorityLevel>)
    ensures s.SearchTasks(Some(""), category, priority) == s.SearchTasks(None, category, priority)
  {
    forall t | t in s.tasks.Values
      ensures TitleMatches(t.title, Some(""))
    {
      ContainsTrivial(Lower(t.title));
    }
    SearchSameFilters(s, Some(""), category, priority, None, category, priority);
  }

  /** The title filter ignores case: lower-casing the query changes nothing. */
  lemma SearchIgnoresCase(s: TaskService, title: string, category: Option<Category>, priority: Option<PriorityLevel>)
    ensures s.SearchTasks(Some(Lower(title)), category, priority) == s.SearchTasks(Some(title), category, priority)
  {
    LowerIdempotent(title);
    SearchSameFilters(s, Some(Lower(title)), category, priority, Some(title), category, priority);
  }

  /** Searching by category alone is getTasksByCategory, exception included. */
  lemma SearchByCategory(s: TaskService, category: Category)
    ensures s.SearchTasks(None, Some(category), None) == s.TasksByCategory(category)
  {
    var r, r' := s.SearchTasks(None, Some(category), None), s.TasksByCategory(category);
    if r.Success? && r'.Success? {
      assert r.value == r'.value;
    }
  }

  /** Each filter can only narrow the result. A title filter never makes a
      search throw; a priority filter may, so a search that succeeds with it
      also succeeds without it; a category filter may both add an exception
      (a task with no category) and remove one (a task of another category
      with no priority). */
  lemma SearchNarrows(s: TaskService, title: Option<string>, category: Option<Category>, priority: Option<PriorityLevel>)
    ensures s.SearchTasks(None, category, priority).Success? ==>
      && s.SearchTasks(title, category, priority).Success?
      && s.SearchTasks(title, category, priority).value <= s.SearchTasks(None, category, priority).value
    ensures s.SearchTasks(title, category, priority).Success? && s.SearchTasks(title, None, priority).Success? ==>
      s.SearchTasks(title, category, priority).value <= s.SearchTasks(title, None, priority).value
    ensures s.SearchTasks(title, category, priority).Success? ==>
      && s.SearchTasks(title, category, None).Success?
      && s.SearchTasks(title, category, priority).value <= s.SearchTasks(title, category, None).value
  {
  }
}
