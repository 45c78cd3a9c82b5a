/** A reminder: a date on which the user is to be reminded of a task, which it
    references by id only. */
module Reminders {
  import opened Base
  import opened Dates
  import opened Text
  import opened DateText
  import opened ReminderTypes

  /** The type part of Reminder.toString: the label, or "Unknown" for no type. */
  function TypeText(t: Option<ReminderType>): (s: string)
    ensures |s| >= 7
  {
    match t
    case None => "Unknown"
    case Some(rt) => Label(rt)
  }

  /** The date part of Reminder.toString: the ISO date, or "No date" for no date. */
  function DateOrNone(d: Option<Date>): string {
    match d
    case None => "No date"
    case Some(date) => IsoDate(date)
  }

  /** Reminder.toString: `type (date)`. */
  function ReminderText(t: Option<ReminderType>, d: Option<Date>): string {
    TypeText(t) + " (" + DateOrNone(d) + ")"
  }

  /** Reads the type back from the start of a reminder text: the labels
      differ in their first or third character. */
  function ReadType(s: string): Option<ReminderType> {
    if |s| < 3 then None
    else if s[0] == 'C' then Some(CustomDate)
    else if s[0] != '1' then None
    else if s[2] == 'd' then Some(OneDayBefore)
    else if s[2] == 'w' then Some(OneWeekBefore)
    else if s[2] == 'm' then Some(OneMonthBefore)
    else None
  }

  /** Reads the date back from the text between the parentheses. */
  function ReadDate(s: string): Option<CivilDate> {
    if s == "No date" || |s| < 6 then None else Some(ReadIsoDate(s))
  }

  /** Reads type and date back from a reminder text. */
  function ReadReminderText(s: string): (Option<ReminderType>, Option<CivilDate>) {
    var t := ReadType(s);
    var start := |TypeText(t)| + 2;
    if start < |s| then (t, ReadDate(s[start..|s| - 1])) else (t, None)
  }

  lemma ReadTypeOf(t: Option<ReminderType>, rest: string)
    ensures ReadType(TypeText(t) + " (" + rest) == t
  {
    var s := TypeText(t) + " (" + rest;
    assert s[0] == TypeText(t)[0] && s[2] == TypeText(t)[2];
  }

  lemma ReadDateOf(d: Option<Date>)
    ensures ReadDate(DateOrNone(d)) == d
  {
    if d.Some? {
      IsoDateRoundTrip(d.value);
      IsoDateStart(d.value);
      assert DateOrNone(d)[0] != 'N';
    }
  }

  /** The text of a reminder determines its type and its date. */
  lemma ReminderTextRoundTrip(t: Option<ReminderType>, d: Option<Date>)
    ensures ReadReminderText(ReminderText(t, d)) == (t, d)
  {
    var s := ReminderText(t, d);
    ReadTypeOf(t, DateOrNone(d) + ")");
    assert s == TypeText(t) + " (" + (DateOrNone(d) + ")");
    assert s[|TypeText(t)| + 2..|s| - 1] == DateOrNone(d);
    ReadDateOf(d);
  }

  class Reminder {
    const id: Id
    const taskId: Id
    var rtype: Option<ReminderType>
    var reminderDate: Option<Date>

    /** `new Reminder(taskId, type, reminderDate)`, with `id` the fresh UUID. */
    constructor (id: Id, taskId: Id, rtype: Option<ReminderType>, reminderDate: Option<Date>)
      ensures this.id == id && this.taskId == taskId
      ensures this.rtype == rtype && this.reminderDate == reminderDate
    {
      this.id := id;
      this.taskId := taskId;
      this.rtype := rtype;
      this.reminderDate := reminderDate;
    }

    method SetType(rtype: Option<ReminderType>)
      modifies this
      ensures this.rtype == rtype
      ensures reminderDate == old(reminderDate)
    {
      this.rtype := rtype;
    }

    method SetReminderDate(reminderDate: Option<Date>)
      modifies this
      ensures this.reminderDate == reminderDate
      ensures rtype == old(rtype)
    {
      this.reminderDate := reminderDate;
    }

    /** Reminder.toString: the type label ("Unknown" when there is none) and
        the ISO date ("No date" when there is none) in parentheses. The text
        determines both. */
    function ToString(): (s: string)
      reads this
      ensures s == ReminderText(rtype, reminderDate)
      ensures ReadReminderText(s) == (rtype, reminderDate)
    {
      ReminderTextRoundTrip(rtype, reminderDate);
      ReminderText(rtype, reminderDate)
    }
  }
}
