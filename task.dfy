/** A task: what is to be done, by when, under which category and priority,
    and how far it has got. */
module Tasks {
  import opened Base
  import opened Dates
  import opened Categories
  import opened PriorityLevels

  datatype TaskStatus = Open | InProgress | Postponed | Completed | Delayed

  /** Task.isDelayed on the fields it reads: not completed, and a deadline
      that lies strictly before today. */
  function Overdue(status: TaskStatus, deadline: Option<Date>, today: Date): (r: bool)
    ensures status == Completed || deadline.None? ==> !r
  {
    status != Completed && deadline.Some? && Before(deadline.value, today)
  }

  /** The status Task.checkAndUpdateStatus leaves. */
  function StatusAfterCheck(status: TaskStatus, deadline: Option<Date>, today: Date): (s: TaskStatus)
    ensures s == Delayed || s == status
    ensures s != status ==> Overdue(status, deadline, today) && status != Delayed
    ensures Overdue(status, deadline, today) ==> s == Delayed
    ensures status == Completed ==> s == Completed
  {
    if Overdue(status, deadline, today) then Delayed else status
  }

  /** An overdue task stays overdue on every later day. */
  lemma OverdueLater(status: TaskStatus, deadline: Option<Date>, today: Date, later: Date)
    requires !Before(later, today)
    ensures Overdue(status, deadline, today) ==> Overdue(status, deadline, later)
  {
  }

  /** A checked task stays as it is when checked again on the same day. */
  lemma StatusCheckIdempotent(status: TaskStatus, deadline: Option<Date>, today: Date)
    ensures var s := StatusAfterCheck(status, deadline, today);
      StatusAfterCheck(s, deadline, today) == s
  {
  }

  class Task {
    const id: Id
    var title: string
    var description: string
    /** None when the task was created or edited with no category chosen. */
    var category: Option<Category>
    var priority: PriorityLevel?
    var deadline: Option<Date>
    var status: TaskStatus

    /** `new Task(title, description, category, priority, deadline)`, with
        `id` the fresh UUID and `category` None for a null category; a new
        task is open. */
    constructor (id: Id, title: string, description: string, category: Option<Category>,
                 priority: PriorityLevel?, deadline: Option<Date>)
      ensures this.id == id && this.title == title && this.description == description
      ensures this.category == category && this.priority == priority
      ensures this.deadline == deadline && status == Open
    {
      this.id := id;
      this.title := title;
      this.description := description;
      this.category := category;
      this.priority := priority;
      this.deadline := deadline;
      this.status := Open;
    }

    method SetTitle(title: string)
      modifies this
      ensures this.title == title
      ensures description == old(description) && category == old(category) && priority == old(priority)
      ensures deadline == old(deadline) && status == old(status)
    {
      this.title := title;
    }

    method SetDescription(description: string)
      modifies this
      ensures this.description == description
      ensures title == old(title) && category == old(category) && priority == old(priority)
      ensures deadline == old(deadline) && status == old(status)
    {
      this.description := description;
    }

    method SetCategory(category: Option<Category>)
      modifies this
      ensures this.category == category
      ensures title == old(title) && description == old(description) && priority == old(priority)
      ensures deadline == old(deadline) && status == old(status)
    {
      this.category := category;
    }

    method SetPriority(priority: PriorityLevel?)
      modifies this
      ensures this.priority == priority
      ensures title == old(title) && description == old(description) && category == old(category)
      ensures deadline == old(deadline) && status == old(status)
    {
      this.priority := priority;
    }

    method SetDeadline(deadline: Option<Date>)
      modifies this
      ensures this.deadline == deadline
      ensures title == old(title) && description == old(description) && category == old(category)
      ensures priority == old(priority) && status == old(status)
    {
      this.deadline := deadline;
    }

    method SetStatus(status: TaskStatus)
      modifies this
      ensures this.status == status
      ensures title == old(title) && description == old(description) && category == old(category)
      ensures priority == old(priority) && deadline == old(deadline)
    {
      this.status := status;
    }

    /** Task.isDelayed, with `today` standing for LocalDate.now(). */
    predicate IsDelayed(today: Date)
      reads this
      ensures IsDelayed(today) ==> StatusAfterCheck(status, deadline, today) == Delayed
      ensures !IsDelayed(today) ==> StatusAfterCheck(status, deadline, today) == status
    {
      Overdue(status, deadline, today)
    }

    /** Task.checkAndUpdateStatus: a delayed task becomes DELAYED, any other
        keeps its status; a second call on the same day changes nothing. */
    method CheckAndUpdateStatus(today: Date)
      modifies this
      ensures status == StatusAfterCheck(old(status), deadline, today)
      ensures old(IsDelayed(today)) ==> status == Delayed
      ensures !old(IsDelayed(today)) ==> status == old(status)
      ensures IsDelayed(today) == old(IsDelayed(today))
      ensures title == old(title) && description == old(description) && category == old(category)
      ensures priority == old(priority) && deadline == old(deadline)
    {
      if IsDelayed(today) {
        status := Delayed;
      }
    }
  }
}
