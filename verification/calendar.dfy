/** The parts of Go's `time.Time` the encoder reads, and the two date layouts it prints:
    "02-01-06" (day-month-year) for document identifiers and "01-02-06"
    (month-day-year) for documents issued by a POS terminal. */
module Calendar {
  import opened Numerals

  type Month = m: int | 1 <= m <= 12 witness 1
  type Day = d: int | 1 <= d <= 31 witness 1

  /** A date as `time.Time` reports it through Year(), Month() and Day(). */
  datatype Date = Date(year: int, month: Month, day: Day)

  /** The year as the "06" layout element sees it: the last two digits of its
      absolute value. */
  function ShortYear(y: int): (r: nat)
    ensures r < 100
    ensures 0 <= y ==> r == y % 100
  {
    (if y < 0 then -y else y) % 100
  }

  /** Format("02-01-06"). */
  function DayMonthYear(d: Date): string {
    TwoDigits(d.day) + "-" + TwoDigits(d.month) + "-" + TwoDigits(ShortYear(d.year))
  }

  /** Format("01-02-06"). */
  function MonthDayYear(d: Date): string {
    TwoDigits(d.month) + "-" + TwoDigits(d.day) + "-" + TwoDigits(ShortYear(d.year))
  }

  /** Three two-character groups joined by dashes keep their positions. */
  lemma DashedGroups(a: string, b: string, c: string)
    requires |a| == 2 && |b| == 2 && |c| == 2
    ensures var s := a + "-" + b + "-" + c;
      && |s| == 8 && s[2] == '-' && s[5] == '-'
      && s[0..2] == a && s[3..5] == b && s[6..8] == c
  {
    var s := a + "-" + b + "-" + c;
    assert s[0..2] == a;
    assert s[3..5] == b;
    assert s[6..8] == c;
  }

  /** `s` is a date of the form NN-NN-NN whose three groups read as the given numbers. */
  predicate DateText(s: string, first: nat, second: nat, third: nat) {
    && |s| == 8 && s[2] == '-' && s[5] == '-'
    && DigitsOf(s[0..2], first) && DigitsOf(s[3..5], second) && DigitsOf(s[6..8], third)
  }

  /** The day-month-year text reads back as the day, the month and the short year. */
  lemma DayMonthYearFields(d: Date)
    ensures DateText(DayMonthYear(d), d.day, d.month, ShortYear(d.year))
  {
    TwoDigitsReadBack(d.day);
    TwoDigitsReadBack(d.month);
    TwoDigitsReadBack(ShortYear(d.year));
    DashedGroups(TwoDigits(d.day), TwoDigits(d.month), TwoDigits(ShortYear(d.year)));
  }

  /** The month-day-year text has the month first and the day second. */
  lemma MonthDayYearFields(d: Date)
    ensures DateText(MonthDayYear(d), d.month, d.day, ShortYear(d.year))
  {
    TwoDigitsReadBack(d.day);
    TwoDigitsReadBack(d.month);
    TwoDigitsReadBack(ShortYear(d.year));
    DashedGroups(TwoDigits(d.month), TwoDigits(d.day), TwoDigits(ShortYear(d.year)));
  }
}
