/** Calendar dates as JavaScript keeps them: what `new Date(year, month - 1, day)` makes of any numbers. */
module Dates {
  import opened Text

  datatype CalendarDate = CalendarDate(year: nat, month: nat, day: nat)

  predicate IsLeap(year: nat) {
    year % 4 == 0 && (year % 100 != 0 || year % 400 == 0)
  }

  function DaysIn(year: nat, month: nat): (days: nat)
    ensures 28 <= days <= 31
  {
    if month == 2 then (if IsLeap(year) then 29 else 28)
    else if month in {4, 6, 9, 11} then 30
    else 31
  }

  predicate IsReal(d: CalendarDate) {
    1 <= d.month <= 12 && 1 <= d.day <= DaysIn(d.year, d.month)
  }

  /** How many of the years before this one are leap years. */
  function LeapYearsBefore(year: nat): nat {
    if year == 0 then 0 else LeapYearsBefore(year - 1) + if IsLeap(year - 1) then 1 else 0
  }

  lemma NextMultiple(year: nat, k: nat)
    requires k in {4, 100, 400}
    ensures (year + 1 + (k - 1)) / k == (year + (k - 1)) / k + if year % k == 0 then 1 else 0
  {}

  /** The calendar is the Gregorian one: of the years before any given one every fourth is a leap year, but for the
      hundredths, and again for the four-hundredths ... */
  lemma {:induction false} LeapYearsAre(year: nat)
    ensures LeapYearsBefore(year) == (year + 3) / 4 - (year + 99) / 100 + (year + 399) / 400
  {
    if year > 0 {
      LeapYearsAre(year - 1);
      NextMultiple(year - 1, 4);
      NextMultiple(year - 1, 100);
      NextMultiple(year - 1, 400);
      MultiplesOfMultiples(year - 1);
    }
  }

  lemma MultiplesOfMultiples(year: nat)
    ensures year % 400 == 0 ==> year % 100 == 0
    ensures year % 100 == 0 ==> year % 4 == 0
  {
    if year % 400 == 0 {
      assert year == 100 * (4 * (year / 400));
      Hundreds(4 * (year / 400));
    }
    if year % 100 == 0 {
      assert year == 4 * (25 * (year / 100));
      Fours(25 * (year / 100));
    }
  }

  lemma Hundreds(n: nat)
    ensures 100 * n % 100 == 0
  {}

  lemma Fours(n: nat)
    ensures 4 * n % 4 == 0
  {}

  /** ... and a leap year has 366 days, any other 365. */
  lemma YearsHaveTheirDays(year: nat)
    ensures DaysIn(year, 1) + DaysIn(year, 2) + DaysIn(year, 3) + DaysIn(year, 4) + DaysIn(year, 5) + DaysIn(year, 6)
            + DaysIn(year, 7) + DaysIn(year, 8) + DaysIn(year, 9) + DaysIn(year, 10) + DaysIn(year, 11)
            + DaysIn(year, 12) == if IsLeap(year) then 366 else 365
  {}

  /** Days past the end of the month run into the following ones; day zero is the last of the month before. */
  function Overflow(year: nat, month: nat, day: nat): (d: CalendarDate)
    requires 1 <= month <= 12
    ensures year > 0 || day > 0 ==> IsReal(d)
    decreases if day == 0 then 1000 else 0, day
  {
    if day == 0 then
      if month > 1 then Overflow(year, month - 1, DaysIn(year, month - 1))
      else if year > 0 then Overflow(year - 1, 12, 31)
      else CalendarDate(0, 1, 1)
    else if day > DaysIn(year, month) then
      if month < 12 then Overflow(year, month + 1, day - DaysIn(year, month))
      else Overflow(year + 1, 1, day - DaysIn(year, month))
    else CalendarDate(year, month, day)
  }

  /** `new Date(year, month - 1, day)`: years below 100 are of the twentieth century. */
  function DateOf(year: nat, month: nat, day: nat): CalendarDate {
    var y := if year < 100 then 1900 + year else year;
    if month == 0 then Overflow(y - 1, 12, day) else Overflow(y + (month - 1) / 12, (month - 1) % 12 + 1, day)
  }

  lemma RealDatesStay(year: nat, month: nat, day: nat)
    requires year >= 100 && IsReal(CalendarDate(year, month, day))
    ensures DateOf(year, month, day) == CalendarDate(year, month, day)
  {}

  /** A year of two digits is one of the twentieth century. */
  lemma ShortYears(year: nat, month: nat, day: nat)
    requires year < 100 && IsReal(CalendarDate(1900 + year, month, day))
    ensures DateOf(year, month, day) == CalendarDate(1900 + year, month, day)
  {}

  // Text ----------------------------------------------------------------------------------------------

  /** Four digits, two and two, with dashes. */
  predicate IsIsoDate(s: string) {
    |s| == 10 && AreDigits(s[..4]) && s[4] == '-' && AreDigits(s[5..7]) && s[7] == '-' && AreDigits(s[8..])
  }

  /** What the text says, real or not. */
  function Said(s: string): CalendarDate
    requires IsIsoDate(s)
  {
    CalendarDate(Value(s[..4]), Value(s[5..7]), Value(s[8..]))
  }

  function ParseIsoDate(s: string): CalendarDate
    requires IsIsoDate(s)
  {
    DateOf(Said(s).year, Said(s).month, Said(s).day)
  }

  /** `new Date(text)` takes months 1 to 12 and days 1 to 31, whatever the month's length ... */
  predicate IsTaken(s: string) {
    IsIsoDate(s) && 1 <= Said(s).month <= 12 && 1 <= Said(s).day <= 31
  }

  function DateOfText(s: string): CalendarDate
    requires IsTaken(s)
  {
    Overflow(Said(s).year, Said(s).month, Said(s).day)
  }

  /** ... and carries the days past the month's end into the next month. */
  lemma TakenDates(s: string)
    requires IsTaken(s)
    ensures var said := Said(s);
            var days := DaysIn(said.year, said.month);
            && IsReal(DateOfText(s))
            && DateOfText(s) == if IsReal(said) then said else CalendarDate(said.year, said.month + 1, said.day - days)
  {
    var said := Said(s);
    OverflowsOnce(said.year, said.month, said.day);
    hide IsIsoDate, Said, Overflow;
  }

  lemma OverflowsOnce(year: nat, month: nat, day: nat)
    requires 1 <= month <= 12 && 1 <= day <= 31
    ensures IsReal(Overflow(year, month, day))
    ensures Overflow(year, month, day)
         == if day <= DaysIn(year, month) then CalendarDate(year, month, day)
            else CalendarDate(year, month + 1, day - DaysIn(year, month))
  {
    if day > DaysIn(year, month) {
      assert month < 12 && Overflow(year, month, day) == Overflow(year, month + 1, day - DaysIn(year, month));
    }
  }

  function Pad2(n: nat): string {
    if n < 10 then "0" + Digits(n) else Digits(n)
  }

  function ToLocalIsoDate(d: CalendarDate): string {
    Digits(d.year) + "-" + Pad2(d.month) + "-" + Pad2(d.day)
  }

  function ToArcaDate(d: CalendarDate): string {
    Digits(d.year) + Pad2(d.month) + Pad2(d.day)
  }

  lemma OneDigit(n: nat)
    requires n < 10
    ensures Digits(n) == [DigitChar(n)]
  {}

  lemma TwoDigits(n: nat)
    requires 10 <= n < 100
    ensures Digits(n) == [DigitChar(n / 10), DigitChar(n % 10)]
  {}

  lemma FourDigits(n: nat)
    requires 1000 <= n < 10000
    ensures |Digits(n)| == 4
  {
    TwoDigits(n / 100);
    assert n / 10 / 10 == n / 100;
    assert Digits(n / 10) == Digits(n / 100) + [DigitChar(n / 10 % 10)];
    assert Digits(n) == Digits(n / 10) + [DigitChar(n % 10)];
  }

  lemma PaddedReadsBack(n: nat)
    requires n < 100
    ensures |Pad2(n)| == 2 && AllDigits(Pad2(n)) && Value(Pad2(n)) == n
  {
    if n < 10 { OneDigit(n); } else { TwoDigits(n); }
    var s := Pad2(n);
    assert s[..1] == [s[0]] && s[..1][..0] == "";
    assert Value(s[..1]) == DigitOf(s[0]);
    assert Value(s) == 10 * Value(s[..1]) + DigitOf(s[1]);
  }

  /** Two digits are what padding their value gives. */
  lemma PadReads(s: string)
    requires |s| == 2 && AllDigits(s)
    ensures Value(s) < 100 && Pad2(Value(s)) == s
  {
    var a, b := DigitOf(s[0]), DigitOf(s[1]);
    assert s[..1] == [s[0]] && s[..1][..0] == "";
    assert Value(s[..1]) == a;
    assert Value(s) == 10 * a + b;
    assert s == [DigitChar(a), DigitChar(b)];
    if a == 0 { OneDigit(b); } else { TwoDigits(Value(s)); }
  }

  /** Digits not starting with a zero are what printing their value gives. */
  lemma {:induction false} DigitsRead(s: string)
    requires s != "" && AllDigits(s) && (s[0] != '0' || |s| == 1)
    ensures Digits(Value(s)) == s && (s[0] != '0' ==> Value(s) > 0)
  {
    var n := |s| - 1;
    assert s == s[..n] + [s[n]];
    assert s[n] == DigitChar(DigitOf(s[n]));
    if n == 0 {
      assert s[..0] == "";
    } else {
      DigitsRead(s[..n]);
      assert Value(s) / 10 == Value(s[..n]) && Value(s) % 10 == DigitOf(s[n]);
    }
  }

  lemma FirstDigitOf(s: string)
    requires |s| == 4 && AllDigits(s) && Value(s) >= 1000
    ensures s[0] != '0'
  {
    var t3, t2, t1 := s[..3], s[..2], s[..1];
    assert t3[..2] == t2 && t2[..1] == t1 && t1[..0] == "";
    assert Value(s) == 10 * Value(t3) + DigitOf(s[3]);
    assert Value(t3) == 10 * Value(t2) + DigitOf(s[2]);
    assert Value(t2) == 10 * Value(t1) + DigitOf(s[1]);
    assert Value(t1) == DigitOf(s[0]);
  }

  /** A real calendar date from the year 1000 on is stored and written back unchanged. */
  lemma RealDatesReadBack(s: string)
    requires IsIsoDate(s) && IsReal(Said(s)) && Said(s).year >= 1000
    ensures ToLocalIsoDate(ParseIsoDate(s)) == s
  {
    RealDatesStay(Said(s).year, Said(s).month, Said(s).day);
    FirstDigitOf(s[..4]);
    DigitsRead(s[..4]);
    PadReads(s[5..7]);
    PadReads(s[8..]);
    assert s == s[..4] + "-" + s[5..7] + "-" + s[8..];
  }

  /** Exactly the dates of four-digit years are written in the form they are read, and say what was written. */
  lemma WrittenDatesAreIso(d: CalendarDate)
    requires IsReal(d)
    ensures IsIsoDate(ToLocalIsoDate(d)) <==> 1000 <= d.year <= 9999
    ensures IsIsoDate(ToLocalIsoDate(d)) ==> Said(ToLocalIsoDate(d)) == d
  {
    var y, m, n := Digits(d.year), Pad2(d.month), Pad2(d.day);
    PaddedReadsBack(d.month);
    PaddedReadsBack(d.day);
    YearLength(d.year);
    var text := ToLocalIsoDate(d);
    assert |text| == |y| + 6;
    if |y| == 4 {
      assert text[..4] == y && text[5..7] == m && text[8..] == n;
      ValueOfDigits(d.year);
    }
  }

  lemma YearLength(n: nat)
    ensures |Digits(n)| == 4 <==> 1000 <= n <= 9999
  {
    if n < 10 { OneDigit(n); }
    else if n < 100 { TwoDigits(n); }
    else if n < 1000 { TwoDigits(n / 10); }
    else if n < 10000 { FourDigits(n); }
    else { LongNumber(n); }
  }

  lemma {:induction false} LongNumber(n: nat)
    requires n >= 10000
    ensures |Digits(n)| >= 5
  {
    if n / 10 < 10000 { FourDigits(n / 10); } else { LongNumber(n / 10); }
  }

  /** ARCA's form of a date: four digits of its year, two of its month, two of its day. */
  lemma ArcaDateParts(d: CalendarDate)
    requires IsReal(d) && 1000 <= d.year <= 9999
    ensures var s := ToArcaDate(d);
            && |s| == 8 && AllDigits(s)
            && Value(s[..4]) == d.year && Value(s[4..6]) == d.month && Value(s[6..]) == d.day
  {
    PaddedReadsBack(d.month);
    PaddedReadsBack(d.day);
    FourDigits(d.year);
    ValueOfDigits(d.year);
    var s := ToArcaDate(d);
    assert s[..4] == Digits(d.year) && s[4..6] == Pad2(d.month) && s[6..] == Pad2(d.day);
  }
}
