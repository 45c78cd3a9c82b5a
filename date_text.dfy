/** LocalDate.toString: the ISO-8601 text `uuuu-MM-dd` of a date, and a reader
    that recovers the date from it. */
module DateText {
  import opened Dates
  import opened Text

  function Abs(n: int): nat {
    if n < 0 then -n else n
  }

  /** The year as LocalDate.toString writes it: at least four digits, a '-'
      for years before year 0 and a '+' for years after 9999. */
  function YearText(year: int): (s: string)
    ensures |s| >= 4
  {
    var sign := if year < 0 then "-" else if year > 9999 then "+" else "";
    sign + PadLeft(Digits(Abs(year)), 4)
  }

  /** LocalDate.toString. */
  function IsoDate(d: Date): (s: string)
    ensures |s| >= 10
    ensures s[|s| - 6] == '-' && s[|s| - 3] == '-'
  {
    YearText(d.year) + "-" + TwoDigits(d.month) + "-" + TwoDigits(d.day)
  }

  function ReadYear(t: string): int {
    if |t| > 0 && t[0] == '-' then 0 - ParseNat(t[1..]) as int
    else if |t| > 0 && t[0] == '+' then ParseNat(t[1..])
    else ParseNat(t)
  }

  /** Reads a date back from its `IsoDate` text. */
  function ReadIsoDate(s: string): CivilDate
    requires |s| >= 6
  {
    CivilDate(ReadYear(s[..|s| - 6]), ParseNat(s[|s| - 5..|s| - 3]), ParseNat(s[|s| - 2..]))
  }

  lemma ReadYearText(year: int)
    ensures ReadYear(YearText(year)) == year
  {
    var body := PadLeft(Digits(Abs(year)), 4);
    ParsePadded(Abs(year), 4);
    if year < 0 {
      assert YearText(year)[1..] == body;
    } else if year > 9999 {
      assert YearText(year)[1..] == body;
    } else {
      assert YearText(year) == body;
      assert IsDigit(body[0]);
    }
  }

  /** The date text round-trips: the date can be read back from it. */
  lemma IsoDateRoundTrip(d: Date)
    ensures ReadIsoDate(IsoDate(d)) == d
  {
    var s := IsoDate(d);
    var y := YearText(d.year);
    assert s[..|s| - 6] == y;
    assert s[|s| - 5..|s| - 3] == TwoDigits(d.month);
    assert s[|s| - 2..] == TwoDigits(d.day);
    ReadYearText(d.year);
  }

  /** Different dates have different texts. */
  lemma IsoDateInjective(a: Date, b: Date)
    requires IsoDate(a) == IsoDate(b)
    ensures a == b
  {
    IsoDateRoundTrip(a);
    IsoDateRoundTrip(b);
  }

  /** The text never starts with a letter: it starts with a sign or a digit. */
  lemma IsoDateStart(d: Date)
    ensures IsoDate(d)[0] == '-' || IsoDate(d)[0] == '+' || IsDigit(IsoDate(d)[0])
  {
    var body := PadLeft(Digits(Abs(d.year)), 4);
    assert IsDigit(body[0]);
  }
}
