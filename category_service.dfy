/** The category store: the categories by id. Deleting a category deletes
    every task in it, and with each task its reminders. */
module CategoryStore {
  import opened Base
  import opened Categories
  import opened Tasks
  import opened Reminders
  import opened ReminderStore
  import opened TaskStore

  function CategoryIdOf(c: Category): Id {
    c.id
  }

  /** The names of the categories created when storage holds none, in order. */
  const DefaultNames: seq<string> := ["Work", "Personal", "Study", "Health", "Finance"]

  /** The default categories, the i-th with the i-th of `ids` for its UUID. */
  function DefaultCategories(ids: seq<Id>): (r: seq<Category>)
    requires |ids| == |DefaultNames|
    ensures |r| == |ids|
    ensures forall i :: 0 <= i < |r| ==> r[i] == Category(ids[i], DefaultNames[i])
  {
    seq(|ids|, i requires 0 <= i < |ids| => Category(ids[i], DefaultNames[i]))
  }

  /** The ids of a set of tasks. */
  function IdsOf(ts: set<Task>): (r: set<Id>)
    ensures forall t :: t in ts ==> t.id in r
  {
    set t | t in ts :: t.id
  }

  /** Deleting one more task of `victims`, with its reminders, extends the
      deletion of those done so far. */
  lemma DeleteStep(tasks0: map<Id, Task>, reminders0: map<Id, Reminder>, done: set<Task>, task: Task)
    requires task !in done
    ensures |done + {task}| == |done| + 1
    ensures tasks0 - IdsOf(done) - {task.id} == tasks0 - IdsOf(done + {task})
    ensures WithoutTasks(WithoutTasks(reminders0, IdsOf(done)), {task.id}) == WithoutTasks(reminders0, IdsOf(done + {task}))
  {
    assert IdsOf(done + {task}) == IdsOf(done) + {task.id};
    WithoutTasksCompose(reminders0, IdsOf(done), {task.id});
  }

  /** With distinct UUIDs the five default categories are all stored, each
      under its own id with its own name. */
  lemma DefaultCategoriesStored(ids: seq<Id>)
    requires |ids| == |DefaultNames|
    requires forall i, j :: 0 <= i < j < |ids| ==> ids[i] != ids[j]
    ensures forall i :: 0 <= i < |ids| ==>
      ids[i] in IndexBy(DefaultCategories(ids), CategoryIdOf)
      && IndexBy(DefaultCategories(ids), CategoryIdOf)[ids[i]] == Category(ids[i], DefaultNames[i])
    ensures |IndexBy(DefaultCategories(ids), CategoryIdOf)| == |DefaultNames|
  {
    var s := DefaultCategories(ids);
    var m := IndexBy(s, CategoryIdOf);
    assert forall i :: 0 <= i < |s| ==> CategoryIdOf(s[i]) == ids[i];
    IndexByDistinct(s, CategoryIdOf);
    forall i | 0 <= i < |ids|
      ensures ids[i] in m && m[ids[i]] == Category(ids[i], DefaultNames[i])
    {
      assert CategoryIdOf(s[i]) == ids[i];
    }
  }

  class CategoryService {
    var categories: map<Id, Category>
    /** Number of times the categories were written to storage. */
    var saves: nat
    const taskService: TaskService

    /** Every category is stored under its own id, and the task store is valid. */
    ghost predicate Valid()
      reads this, taskService, taskService.reminderService
    {
      (forall k :: k in categories ==> categories[k].id == k) && taskService.Valid()
    }

    /** `new CategoryService(persistence, taskService)`: when storage holds no
        category the five defaults are created (with `defaultIds` for their
        UUIDs) and saved; then every category is put into the map under its id,
        a later one replacing an earlier one. */
    constructor (taskService: TaskService, loaded: seq<Category>, defaultIds: seq<Id>)
      requires taskService.Valid() && |defaultIds| == |DefaultNames|
      ensures Valid() && this.taskService == taskService
      ensures categories == IndexBy(if loaded == [] then DefaultCategories(defaultIds) else loaded, CategoryIdOf)
      ensures saves == if loaded == [] then 1 else 0
    {
      this.taskService := taskService;
      categories := map[];
      saves := 0;
      new;
      var cats := loaded;
      if cats == [] {
        cats := DefaultCategories(defaultIds);
        saves := saves + 1;
      }
      PutAll(cats);
    }

    /** `cats.forEach(category -> categories.put(category.getId(), category))`. */
    method PutAll(cats: seq<Category>)
      requires categories == map[] && taskService.Valid()
      modifies this`categories
      ensures categories == IndexBy(cats, CategoryIdOf) && Valid()
    {
      var i := 0;
      while i < |cats|
        invariant 0 <= i <= |cats|
        invariant categories == IndexBy(cats[..i], CategoryIdOf)
      {
        assert cats[..i + 1][..i] == cats[..i];
        categories := categories[cats[i].id := cats[i]];
        i := i + 1;
      }
      assert cats[..|cats|] == cats;
    }

    /** CategoryService.getAllCategories. */
    function GetAllCategories(): (r: set<Category>)
      reads this
      ensures forall id :: id in categories ==> categories[id] in r
      ensures forall c :: c in r ==> exists id :: id in categories && categories[id] == c
    {
      categories.Values
    }

    /** CategoryService.getCategoryById: the category stored under `id`, or
        none (null); a category found carries that id. */
    function GetCategoryById(id: Id): (r: Option<Category>)
      reads this, taskService, taskService.reminderService
      requires Valid()
      ensures r.Some? <==> id in categories
      ensures r.Some? ==> r.value.id == id && r.value in GetAllCategories()
    {
      if id in categories then Some(categories[id]) else None
    }

    /** CategoryService.createCategory with `id` for the new category's UUID:
        exactly one entry is added and saved. */
    method CreateCategory(id: Id, name: string) returns (c: Category)
      requires Valid()
      modifies this`categories, this`saves
      ensures Valid()
      ensures c.id == id && c.name == name
      ensures categories == old(categories)[id := c]
      ensures id !in old(categories) ==> |categories| == |old(categories)| + 1
      ensures saves == old(saves) + 1
    {
      c := Category(id, name);
      categories := categories[c.id := c];
      saves := saves + 1;
    }

    /** CategoryService.updateCategory: an upsert under the category's id. The
        tasks keep the copy of the category they hold. */
    method UpdateCategory(c: Category)
      requires Valid()
      modifies this`categories, this`saves
      ensures Valid()
      ensures categories == old(categories)[c.id := c]
      ensures saves == old(saves) + 1
    {
      categories := categories[c.id := c];
      saves := saves + 1;
    }

    /** CategoryService.deleteCategory. An unknown id changes nothing and saves
        nothing. So does a known one while some stored task has a null
        category: getTasksByCategory throws before any task is deleted.
        Otherwise every task of that category is deleted through deleteTask
        (so are its reminders), no task of that category is left, the other
        tasks stay, and the category is removed and saved. */
    method DeleteCategory(categoryId: Id) returns (r: Outcome)
      requires Valid()
      modifies this`categories, this`saves, taskService`tasks, taskService`saves, taskService.reminderService
      ensures Valid()
      ensures categoryId !in old(categories) || old(taskService.HasUncategorised()) ==>
        && categories == old(categories) && saves == old(saves)
        && taskService.tasks == old(taskService.tasks) && taskService.saves == old(taskService.saves)
        && taskService.reminderService.reminders == old(taskService.reminderService.reminders)
        && taskService.reminderService.saves == old(taskService.reminderService.saves)
      ensures categoryId !in old(categories) ==> r == Pass
      ensures categoryId in old(categories) && old(taskService.HasUncategorised()) ==> r == Fail(NullPointer)
      ensures categoryId in old(categories) && !old(taskService.HasUncategorised()) ==>
        var victims := old(taskService.TasksByCategory(categories[categoryId])).value;
        && r == Pass
        && categories == old(categories) - {categoryId} && saves == old(saves) + 1
        && taskService.tasks == old(taskService.tasks) - IdsOf(victims)
        && taskService.reminderService.reminders == WithoutTasks(old(taskService.reminderService.reminders), IdsOf(victims))
        && taskService.saves == old(taskService.saves) + |victims|
        && taskService.reminderService.saves == old(taskService.reminderService.saves) + |victims|
        && (forall t :: t in taskService.tasks.Values ==> t.category != Some(old(categories[categoryId])))
        && (forall t :: t in old(taskService.tasks.Values) && t.category != Some(old(categories[categoryId]))
              ==> t in taskService.tasks.Values)
    {
      if categoryId !in categories {
        return Pass;
      }
      var category := categories[categoryId];
      var found := taskService.TasksByCategory(category);
      if found.Failure? {
        return Fail(found.error);
      }
      var victims := found.value;
      DeleteTasks(victims);
      categories := categories - {categoryId};
      saves := saves + 1;
      forall t | t in taskService.tasks.Values
        ensures t.category != Some(category)
      {
        var k :| k in taskService.tasks && taskService.tasks[k] == t;
        assert t.id == k && k !in IdsOf(victims);
      }
      forall t | t in old(taskService.tasks.Values) && t.category != Some(category)
        ensures t in taskService.tasks.Values
      {
        var k :| k in old(taskService.tasks) && old(taskService.tasks[k]) == t;
        assert t.id == k && t !in victims;
        assert taskService.tasks[k] == t;
      }
      r := Pass;
    }

    /** The state of that loop once the tasks `done` are deleted, against the
        tasks, reminders and save counts it started from. */
    ghost predicate Deleted(tasks0: map<Id, Task>, reminders0: map<Id, Reminder>, saves0: nat, reminderSaves0: nat,
                            done: set<Task>)
      reads this, taskService, taskService.reminderService
    {
      && taskService.Valid()
      && taskService.tasks == tasks0 - IdsOf(done)
      && taskService.reminderService.reminders == WithoutTasks(reminders0, IdsOf(done))
      && taskService.saves == saves0 + |done|
      && taskService.reminderService.saves == reminderSaves0 + |done|
    }

    /** `tasks.forEach(task -> taskService.deleteTask(task.getId()))` over the
        tasks `victims` of the category. */
    method DeleteTasks(victims: set<Task>)
      requires taskService.Valid()
      modifies taskService`tasks, taskService`saves, taskService.reminderService
      ensures Deleted(old(taskService.tasks), old(taskService.reminderService.reminders),
                      old(taskService.saves), old(taskService.reminderService.saves), victims)
    {
      var todo := victims;
      ghost var done: set<Task> := {};
      ghost var tasks0 := taskService.tasks;
      ghost var reminders0 := taskService.reminderService.reminders;
      ghost var saves0 := taskService.saves;
      ghost var reminderSaves0 := taskService.reminderService.saves;
      assert IdsOf({}) == {};
      assert WithoutTasks(reminders0, {}) == reminders0;
      while todo != {}
        invariant todo !! done && todo + done == victims
        invariant Deleted(tasks0, reminders0, saves0, reminderSaves0, done)
        decreases todo
      {
        var task :| task in todo;
        DeleteOne(task, tasks0, reminders0, saves0, reminderSaves0, done);
        done := done + {task};
        todo := todo - {task};
      }
    }

    /** One pass of that loop: `taskService.deleteTask(task.getId())`. */
    method DeleteOne(task: Task, ghost tasks0: map<Id, Task>, ghost reminders0: map<Id, Reminder>,
                     ghost saves0: nat, ghost reminderSaves0: nat, ghost done: set<Task>)
      requires task !in done && Deleted(tasks0, reminders0, saves0, reminderSaves0, done)
      modifies taskService`tasks, taskService`saves, taskService.reminderService
      ensures Deleted(tasks0, reminders0, saves0, reminderSaves0, done + {task})
    {
      DeleteStep(tasks0, reminders0, done, task);
      taskService.DeleteTask(task.id);
    }
  }
}
