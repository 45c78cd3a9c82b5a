/** The kinds of reminder and the labels ReminderType.toString shows. */
module ReminderTypes {

  datatype ReminderType = OneDayBefore | OneWeekBefore | OneMonthBefore | CustomDate

  const RelativeSuffix := " before deadline"

  /** ReminderType.toString: the three relative types read "<n> <unit>
      before deadline", the custom one does not. */
  function Label(t: ReminderType): (r: string)
    ensures t != CustomDate <==> |r| > |RelativeSuffix| && r[|r| - |RelativeSuffix|..] == RelativeSuffix
  {
    match t
    case OneDayBefore => "1 day before deadline"
    case OneWeekBefore => "1 week before deadline"
    case OneMonthBefore => "1 month before deadline"
    case CustomDate => "Custom date"
  }

  /** The four labels are pairwise distinct, so a label names its type. */
  lemma LabelsDistinct(a: ReminderType, b: ReminderType)
    ensures Label(a) == Label(b) <==> a == b
  {
    if a != b {
      assert Label(OneDayBefore)[2] == 'd' && Label(OneWeekBefore)[2] == 'w';
      assert Label(OneMonthBefore)[2] == 'm' && Label(CustomDate)[0] == 'C';
      assert Label(a)[2] != Label(b)[2] || Label(a)[0] != Label(b)[0];
    }
  }
}
