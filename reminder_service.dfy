/** The reminder store: the reminders by id, the computation of a reminder's
    date from its task's deadline, and the deletion of a task's reminders. */
module ReminderStore {
  import opened Base
  import opened Dates
  import opened ReminderTypes
  import opened Reminders
  import opened Tasks

  /** ReminderService.calculateReminderDate: a day, a week or a calendar month
      before the deadline, or the custom date as given (possibly null). */
  function CalculateReminderDate(deadline: Date, rtype: ReminderType, customDate: Option<Date>): (r: Option<Date>)
    ensures rtype == CustomDate ==> r == customDate
    ensures rtype != CustomDate ==> r.Some? && Before(r.value, deadline)
    ensures rtype == OneDayBefore ==> NextDay(r.value) == deadline
    ensures rtype == OneWeekBefore ==> PlusDays(r.value, 7) == deadline
    ensures rtype == OneMonthBefore ==>
      && r.value.year * 12 + r.value.month == deadline.year * 12 + deadline.month - 1
      && r.value.day == Min(deadline.day, MonthLength(r.value.year, r.value.month))
  {
    match rtype
    case OneDayBefore =>
      MinusDayRoundTrip(deadline);
      NextPrevInverse(deadline);
      Some(MinusDays(deadline, 1))
    case OneWeekBefore =>
      MinusWeekRoundTrip(deadline);
      Some(MinusWeeks(deadline, 1))
    case OneMonthBefore =>
      MinusMonthShape(deadline);
      Some(MinusMonths(deadline, 1))
    case CustomDate =>
      customDate
  }

  const AfterDeadline := "Reminder date cannot be after task deadline"
  const InThePast := "Reminder date cannot be in the past"

  /** ReminderService.validateReminderDate: a reminder may fall on any day from
      today up to and including the deadline; the deadline is checked first. */
  function ValidateReminderDate(reminderDate: Date, deadline: Date, today: Date): (r: Outcome)
    ensures r == Pass <==> !After(reminderDate, deadline) && !Before(reminderDate, today)
    ensures After(reminderDate, deadline) ==> r == Fail(IllegalArgument(AfterDeadline))
    ensures !After(reminderDate, deadline) && Before(reminderDate, today) ==>
      r == Fail(IllegalArgument(InThePast))
  {
    if After(reminderDate, deadline) then Fail(IllegalArgument(AfterDeadline))
    else if Before(reminderDate, today) then Fail(IllegalArgument(InThePast))
    else Pass
  }

  const CompletedTaskMessage := "Cannot create reminder for completed task"

  /** What ReminderService.createReminder decides for a task in the given
      state: the date of the new reminder, or the exception it throws. */
  function PlanReminder(status: TaskStatus, deadline: Option<Date>, rtype: ReminderType,
                        customDate: Option<Date>, today: Date): (r: Result<Date>)
    ensures status == Completed ==> r == Failure(IllegalState(CompletedTaskMessage))
    ensures r.Success? ==>
      && status != Completed && deadline.Some?
      && !After(r.value, deadline.value) && !Before(r.value, today)
      && (rtype == CustomDate ==> customDate == Some(r.value))
      && (rtype != CustomDate ==> Before(r.value, deadline.value))
    ensures status != Completed && deadline.Some? ==>
      var date := CalculateReminderDate(deadline.value, rtype, customDate);
      (r.Success? <==> date.Some? && ValidateReminderDate(date.value, deadline.value, today) == Pass)
    ensures r.Success? ==> deadline.Some? && CalculateReminderDate(deadline.value, rtype, customDate) == Some(r.value)
    ensures status != Completed && deadline.None? ==> r == Failure(NullPointer)
    ensures status != Completed && deadline.Some? ==>
      var date := CalculateReminderDate(deadline.value, rtype, customDate);
      && (date.None? ==> r == Failure(NullPointer))
      && (date.Some? && ValidateReminderDate(date.value, deadline.value, today).Fail? ==>
            r == Failure(ValidateReminderDate(date.value, deadline.value, today).error))
  {
    if status == Completed then Failure(IllegalState(CompletedTaskMessage))
    else if deadline.None? then Failure(NullPointer)
    else
      match CalculateReminderDate(deadline.value, rtype, customDate)
      case None => Failure(NullPointer)
      case Some(date) =>
        match ValidateReminderDate(date, deadline.value, today)
        case Fail(e) => Failure(e)
        case Pass => Success(date)
  }

  /** A custom reminder on the deadline itself is accepted when the deadline is
      not in the past; one a day after the deadline, or one before today, is refused. */
  lemma CustomDateBoundaries(status: TaskStatus, deadline: Date, today: Date, past: Date)
    requires status != Completed && !Before(deadline, today)
    requires Before(past, today)
    ensures PlanReminder(status, Some(deadline), CustomDate, Some(deadline), today) == Success(deadline)
    ensures PlanReminder(status, Some(deadline), CustomDate, Some(NextDay(deadline)), today)
      == Failure(IllegalArgument(AfterDeadline))
    ensures PlanReminder(status, Some(deadline), CustomDate, Some(past), today)
      == Failure(IllegalArgument(InThePast))
  {
  }

  /** The reminders of `m` whose task is not one of `taskIds`. */
  function WithoutTasks(m: map<Id, Reminder>, taskIds: set<Id>): (r: map<Id, Reminder>)
    ensures r.Keys <= m.Keys
    ensures forall k :: k in r ==> r[k] == m[k] && r[k].taskId !in taskIds
    ensures forall k :: k in m && m[k].taskId !in taskIds ==> k in r
  {
    map k | k in m && m[k].taskId !in taskIds :: m[k]
  }

  /** Removing the reminders of one set of tasks and then of another is
      removing those of both; in particular removing them twice is removing them once. */
  lemma WithoutTasksCompose(m: map<Id, Reminder>, a: set<Id>, b: set<Id>)
    ensures WithoutTasks(WithoutTasks(m, a), b) == WithoutTasks(m, a + b)
    ensures WithoutTasks(WithoutTasks(m, a), a) == WithoutTasks(m, a)
  {
  }

  function IdOf(r: Reminder): Id {
    r.id
  }

  class ReminderService {
    var reminders: map<Id, Reminder>
    /** Number of times the reminders were written to storage. */
    var saves: nat

    /** Every reminder is stored under its own id. */
    ghost predicate Valid()
      reads this
    {
      forall k :: k in reminders ==> reminders[k].id == k
    }

    /** True when no stored reminder refers to task `taskId`. */
    predicate NoRemindersFor(taskId: Id)
      reads this
    {
      forall k :: k in reminders ==> reminders[k].taskId != taskId
    }

    /** `new ReminderService(persistence)`: the stored reminders, put into the
        map one after the other. */
    constructor (loaded: seq<Reminder>)
      ensures Valid() && saves == 0
      ensures reminders == IndexBy(loaded, IdOf)
    {
      reminders := map[];
      saves := 0;
      new;
      var i := 0;
      while i < |loaded|
        invariant 0 <= i <= |loaded|
        invariant reminders == IndexBy(loaded[..i], IdOf) && saves == 0
      {
        assert loaded[..i + 1][..i] == loaded[..i];
        reminders := reminders[loaded[i].id := loaded[i]];
        i := i + 1;
      }
      assert loaded[..|loaded|] == loaded;
    }

    /** ReminderService.createReminder with `today` for LocalDate.now() and `id`
        for the new reminder's UUID. A completed task, a missing date or a date
        outside [today, deadline] throws and changes nothing; otherwise exactly
        one reminder for the task, with the computed date, is added and saved. */
    method CreateReminder(task: Task, rtype: ReminderType, customDate: Option<Date>, today: Date, id: Id)
      returns (r: Result<Reminder>)
      requires Valid()
      modifies this
      ensures Valid()
      ensures var plan := PlanReminder(task.status, task.deadline, rtype, customDate, today);
        && (plan.Failure? ==> r == Failure(plan.error) && reminders == old(reminders) && saves == old(saves))
        && (plan.Success? ==>
              && r.Success? && fresh(r.value)
              && r.value.id == id && r.value.taskId == task.id
              && r.value.rtype == Some(rtype) && r.value.reminderDate == Some(plan.value)
              && reminders == old(reminders)[id := r.value] && saves == old(saves) + 1)
    {
      if task.status == Completed {
        return Failure(IllegalState(CompletedTaskMessage));
      }
      if task.deadline.None? {
        return Failure(NullPointer);
      }
      var date := CalculateReminderDate(task.deadline.value, rtype, customDate);
      if date.None? {
        return Failure(NullPointer);
      }
      var check := ValidateReminderDate(date.value, task.deadline.value, today);
      if check.Fail? {
        return Failure(check.error);
      }
      var reminder := new Reminder(id, task.id, Some(rtype), date);
      reminders := reminders[reminder.id := reminder];
      saves := saves + 1;
      r := Success(reminder);
    }

    /** ReminderService.deleteReminder: removes that id only (if present) and saves. */
    method DeleteReminder(reminderId: Id)
      requires Valid()
      modifies this
      ensures Valid()
      ensures reminders == old(reminders) - {reminderId}
      ensures saves == old(saves) + 1
    {
      reminders := reminders - {reminderId};
      saves := saves + 1;
    }

    /** ReminderService.deleteRemindersForTask: removes exactly the reminders of
        that task and keeps every other one; once done, no reminder refers to
        the task, and doing it again removes nothing. */
    method DeleteRemindersForTask(taskId: Id)
      requires Valid()
      modifies this
      ensures Valid()
      ensures reminders == WithoutTasks(old(reminders), {taskId})
      ensures NoRemindersFor(taskId)
      ensures old(NoRemindersFor(taskId)) ==> reminders == old(reminders)
      ensures saves == old(saves) + 1
    {
      reminders := map k | k in reminders && reminders[k].taskId != taskId :: reminders[k];
      saves := saves + 1;
    }

    /** ReminderService.updateReminder: replaces the reminder stored under the
        same id; an unknown id throws and changes nothing. */
    method UpdateReminder(reminder: Reminder) returns (r: Outcome)
      requires Valid()
      modifies this
      ensures Valid()
      ensures reminder.id in old(reminders) ==>
        r == Pass && reminders == old(reminders)[reminder.id := reminder] && saves == old(saves) + 1
      ensures reminder.id !in old(reminders) ==>
        r == Fail(IllegalArgument("Reminder not found.")) && reminders == old(reminders) && saves == old(saves)
    {
      if reminder.id in reminders {
        reminders := reminders[reminder.id := reminder];
        saves := saves + 1;
        r := Pass;
      } else {
        r := Fail(IllegalArgument("Reminder not found."));
      }
    }
  }
}
