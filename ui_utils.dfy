/** The input validators and the date format of the user interface helpers. */
module UIUtils {
  import opened Base
  import opened Dates
  import opened Text

  /** The year-of-era that the pattern letter `y` prints: year 0 is 1 BC. */
  function YearOfEra(year: int): nat {
    if year >= 1 then year else 1 - year
  }

  /** UIUtils.formatDate with the pattern dd/MM/yy; a null date gives "". */
  function FormatDate(date: Option<Date>): (s: string)
    ensures date.None? <==> s == ""
    ensures date.Some? ==> |s| == 8 && s[2] == '/' && s[5] == '/'
    ensures date.Some? ==> AllDigits(s[0..2]) && AllDigits(s[3..5]) && AllDigits(s[6..8])
    ensures date.Some? ==>
      && ParseNat(s[0..2]) == date.value.day
      && ParseNat(s[3..5]) == date.value.month
      && ParseNat(s[6..8]) == YearOfEra(date.value.year) % 100
  {
    match date
    case None => ""
    case Some(d) =>
      var s := TwoDigits(d.day) + "/" + TwoDigits(d.month) + "/" + TwoDigits(YearOfEra(d.year) % 100);
      assert s[0..2] == TwoDigits(d.day);
      assert s[3..5] == TwoDigits(d.month);
      assert s[6..8] == TwoDigits(YearOfEra(d.year) % 100);
      s
  }

  /** True for a null string or one that is empty after String.trim. */
  predicate IsMissing(s: Option<string>) {
    s.None? || Trim(s.value) == []
  }

  /** Missing exactly when null or made only of characters up to the space. */
  lemma MissingIffBlank(s: Option<string>)
    ensures IsMissing(s) <==> s.None? || IsBlank(s.value)
  {
    if s.Some? {
      TrimEmptyIffBlank(s.value);
    }
  }

  /** UIUtils.validateTaskInput: the error message, or null when the input is valid.
      The title is checked before the deadline. */
  function ValidateTaskInput(title: Option<string>, deadline: Option<Date>): (r: Option<string>)
    ensures r.None? <==> title.Some? && !IsBlank(title.value) && deadline.Some?
    ensures title.None? || IsBlank(title.value) ==> r == Some("Task title is required.")
    ensures title.Some? && !IsBlank(title.value) && deadline.None? ==> r == Some("Task deadline is required.")
  {
    MissingIffBlank(title);
    if IsMissing(title) then Some("Task title is required.")
    else if deadline.None? then Some("Task deadline is required.")
    else None
  }

  /** The check validateCategoryInput and validatePriorityInput share: the
      message when the name is missing, otherwise null. */
  function RequireName(name: Option<string>, message: string): (r: Option<string>)
    ensures r.None? <==> name.Some? && !IsBlank(name.value)
    ensures r.Some? ==> r.value == message
  {
    MissingIffBlank(name);
    if IsMissing(name) then Some(message) else None
  }

  /** UIUtils.validateCategoryInput. */
  function ValidateCategoryInput(name: Option<string>): (r: Option<string>)
    ensures r.None? <==> name.Some? && !IsBlank(name.value)
    ensures r.Some? ==> r.value == "Category name is required."
  {
    RequireName(name, "Category name is required.")
  }

  /** UIUtils.validatePriorityInput. */
  function ValidatePriorityInput(name: Option<string>): (r: Option<string>)
    ensures r.None? <==> name.Some? && !IsBlank(name.value)
    ensures r.Some? ==> r.value == "Priority level name is required."
  {
    RequireName(name, "Priority level name is required.")
  }
}
