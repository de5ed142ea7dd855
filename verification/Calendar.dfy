/** Timestamps as the strings they are stored and compared as. */
module Calendar {

  // ---------------------------------------------------------------- string order

  /** Character by character, a proper prefix first: the order of text columns and of sorted(). */
  predicate Before(a: string, b: string) {
    b != [] && (a == [] || a[0] < b[0] || (a[0] == b[0] && Before(a[1..], b[1..])))
  }

  lemma {:induction false} BeforeTotal(a: string, b: string)
    ensures a == b || Before(a, b) || Before(b, a)
    ensures !(Before(a, b) && Before(b, a)) && !Before(a, a)
    decreases |a|
  {
    if a != [] {
      BeforeTotal(a[1..], a[1..]);
      if b != [] && a[0] == b[0] {
        BeforeTotal(a[1..], b[1..]);
        assert a == [a[0]] + a[1..] && b == [b[0]] + b[1..];
      }
    }
  }

  lemma {:induction false} BeforeTransitive(a: string, b: string, c: string)
    requires Before(a, b) && Before(b, c)
    ensures Before(a, c)
    decreases |a|
  {
    if a != [] && a[0] == b[0] && b[0] == c[0] {
      BeforeTransitive(a[1..], b[1..], c[1..]);
    }
  }

  lemma {:induction false} BeforeConcat(a: string, b: string, x: string, y: string)
    requires |a| == |b|
    ensures Before(a + x, b + y) <==> Before(a, b) || (a == b && Before(x, y))
    decreases |a|
  {
    if a == [] {
      assert a + x == x && b + y == y;
    } else {
      assert (a + x)[1..] == a[1..] + x && (b + y)[1..] == b[1..] + y;
      assert a == [a[0]] + a[1..] && b == [b[0]] + b[1..];
      BeforeConcat(a[1..], b[1..], x, y);
    }
  }

  // ---------------------------------------------------------------- zero-padded numbers

  const DIGITS := "0123456789"

  function Power10(width: nat): nat {
    if width == 0 then 1 else 10 * Power10(width - 1)
  }

  function Padded(n: nat, width: nat): (s: string)
    ensures |s| == width
  {
    if width == 0 then "" else Padded(n / 10, width - 1) + [DIGITS[n % 10]]
  }

  lemma DigitOrder(i: nat, k: nat)
    requires i < 10 && k < 10
    ensures DIGITS[i] < DIGITS[k] <==> i < k
    ensures Before([DIGITS[i]], [DIGITS[k]]) <==> i < k
    ensures [DIGITS[i]] == [DIGITS[k]] <==> i == k
  {
    assert DIGITS[0] == '0' && DIGITS[1] == '1' && DIGITS[2] == '2' && DIGITS[3] == '3' && DIGITS[4] == '4';
    assert DIGITS[5] == '5' && DIGITS[6] == '6' && DIGITS[7] == '7' && DIGITS[8] == '8' && DIGITS[9] == '9';
  }

  /** Zero-padded numbers of one width compare as the numbers do. */
  lemma {:induction false} PaddedOrder(m: nat, n: nat, width: nat)
    requires m < Power10(width) && n < Power10(width)
    ensures Before(Padded(m, width), Padded(n, width)) <==> m < n
    ensures Padded(m, width) == Padded(n, width) <==> m == n
    decreases width
  {
    if width > 0 {
      var p, q := Padded(m / 10, width - 1), Padded(n / 10, width - 1);
      PaddedOrder(m / 10, n / 10, width - 1);
      DigitOrder(m % 10, n % 10);
      BeforeConcat(p, q, [DIGITS[m % 10]], [DIGITS[n % 10]]);
      assert Padded(m, width)[..width - 1] == p && Padded(n, width)[..width - 1] == q;
      assert Padded(m, width)[width - 1..] == [DIGITS[m % 10]] && Padded(n, width)[width - 1..] == [DIGITS[n % 10]];
    }
  }

  /** A padded field in front decides, unless it is the same on both sides. */
  lemma FieldOrder(m: nat, n: nat, width: nat, x: string, y: string)
    requires m < Power10(width) && n < Power10(width)
    ensures Before(Padded(m, width) + x, Padded(n, width) + y) <==> m < n || (m == n && Before(x, y))
    ensures Padded(m, width) + x == Padded(n, width) + y <==> m == n && x == y
  {
    PaddedOrder(m, n, width);
    BeforeConcat(Padded(m, width), Padded(n, width), x, y);
    assert (Padded(m, width) + x)[..width] == Padded(m, width) && (Padded(n, width) + y)[..width] == Padded(n, width);
    assert (Padded(m, width) + x)[width..] == x && (Padded(n, width) + y)[width..] == y;
  }

  lemma SameMark(mark: char, x: string, y: string)
    ensures Before([mark] + x, [mark] + y) <==> Before(x, y)
    ensures [mark] + x == [mark] + y <==> x == y
  {
    BeforeConcat([mark], [mark], x, y);
    BeforeTotal([mark], [mark]);
    assert ([mark] + x)[1..] == x && ([mark] + y)[1..] == y;
  }

  // ---------------------------------------------------------------- dates

  predicate Leap(year: nat) {
    year % 4 == 0 && (year % 100 != 0 || year % 400 == 0)
  }

  function LeapDay(year: nat): nat {
    if Leap(year) then 1 else 0
  }

  /** Days of the year before the first of the month. */
  function DaysBefore(year: nat, month: nat): nat
    requires 1 <= month <= 13
  {
    if month == 1 then 0 else if month == 2 then 31 else
    LeapDay(year) + (
      if month == 3 then 59 else if month == 4 then 90 else if month == 5 then 120 else if month == 6 then 151
      else if month == 7 then 181 else if month == 8 then 212 else if month == 9 then 243 else if month == 10 then 273
      else if month == 11 then 304 else if month == 12 then 334 else 365)
  }

  /** Days before the first of January; the first day of year 1, a Monday, has number 1. */
  function YearStart(year: nat): nat
    requires year >= 1
  {
    var y := year - 1;
    365 * y + y / 4 - y / 100 + y / 400
  }

  datatype Moment = Moment(year: nat, month: nat, day: nat, hour: nat, minute: nat, second: nat)

  /** A moment of the calendar with a four-digit year. */
  predicate Proper(m: Moment) {
    && 1000 <= m.year <= 9999 && 1 <= m.month <= 12
    && 1 <= m.day <= DaysBefore(m.year, m.month + 1) - DaysBefore(m.year, m.month)
    && m.hour < 24 && m.minute < 60 && m.second < 60
  }

  function DayNumber(m: Moment): nat
    requires Proper(m)
  {
    YearStart(m.year) + DaysBefore(m.year, m.month) + m.day
  }

  function Clock(m: Moment): nat {
    m.hour * 3600 + m.minute * 60 + m.second
  }

  /** The moment in whole seconds. */
  function Seconds(m: Moment): nat
    requires Proper(m)
  {
    DayNumber(m) * 86400 + Clock(m)
  }

  lemma YearLength(year: nat)
    requires year >= 1
    ensures YearStart(year + 1) == YearStart(year) + 365 + LeapDay(year)
  {
    var y := year - 1;
    FourHundred(y);
    var c, r := y / 400, y % 400;
    assert year == 400 * c + r + 1;
  }

  /** Division by 4, 100 and 400 stepped from y to y + 1. */
  lemma FourHundred(y: nat)
    ensures (y + 1) / 4 == y / 4 + if (y + 1) % 4 == 0 then 1 else 0
    ensures (y + 1) / 100 == y / 100 + if (y + 1) % 100 == 0 then 1 else 0
    ensures (y + 1) / 400 == y / 400 + if (y + 1) % 400 == 0 then 1 else 0
    ensures (y + 1) % 400 == 0 ==> (y + 1) % 100 == 0
    ensures (y + 1) % 100 == 0 ==> (y + 1) % 4 == 0
  {
  }

  lemma {:induction false} YearsApart(a: nat, b: nat)
    requires 1 <= a < b
    ensures YearStart(a) + 365 + LeapDay(a) <= YearStart(b)
    decreases b
  {
    if b == a + 1 {
      YearLength(a);
    } else {
      YearsApart(a, b - 1);
      YearLength(b - 1);
    }
  }

  lemma MonthsApart(year: nat, a: nat, b: nat)
    requires 1 <= a < b <= 13
    ensures DaysBefore(year, a + 1) <= DaysBefore(year, b)
    ensures DaysBefore(year, 13) == 365 + LeapDay(year)
  {
  }

  /** The year, month and day in this order decide which day comes first. */
  lemma DayOrder(m: Moment, n: Moment)
    requires Proper(m) && Proper(n)
    ensures DayNumber(m) < DayNumber(n) <==>
            m.year < n.year || (m.year == n.year && (m.month < n.month || (m.month == n.month && m.day < n.day)))
    ensures DayNumber(m) == DayNumber(n) <==> m.year == n.year && m.month == n.month && m.day == n.day
    ensures YearStart(m.year) < DayNumber(m) <= YearStart(m.year + 1)
  {
    YearLength(m.year);
    MonthsApart(m.year, m.month, 13);
    MonthsApart(n.year, n.month, 13);
    if m.year < n.year {
      YearsApart(m.year, n.year);
    } else if n.year < m.year {
      YearsApart(n.year, m.year);
    } else if m.month < n.month {
      MonthsApart(m.year, m.month, n.month);
    } else if n.month < m.month {
      MonthsApart(m.year, n.month, m.month);
    }
  }

  function MonthLength(year: nat, month: nat): nat {
    if month == 2 then if Leap(year) then 29 else 28
    else if month == 4 || month == 6 || month == 9 || month == 11 then 30
    else 31
  }

  /** The date after the moment's, at midnight. */
  function NextDay(m: Moment): Moment {
    if m.day < MonthLength(m.year, m.month) then Moment(m.year, m.month, m.day + 1, 0, 0, 0)
    else if m.month < 12 then Moment(m.year, m.month + 1, 1, 0, 0, 0)
    else Moment(m.year + 1, 1, 1, 0, 0, 0)
  }

  /** Days are numbered one after the other, through every month and year. */
  lemma NextDayNumber(m: Moment)
    requires Proper(m) && m.year < 9999
    ensures Proper(NextDay(m)) && DayNumber(NextDay(m)) == DayNumber(m) + 1
    ensures 1 <= m.day <= MonthLength(m.year, m.month)
  {
    hide YearStart, Leap;
    YearLength(m.year);
  }

  /** The 2nd of March 2026 was a Monday, the first day of its week. */
  lemma AMonday()
    ensures DayNumber(Moment(2026, 3, 2, 0, 0, 0)) % 7 == 1
  {
    assert YearStart(2026) == 739_616;
  }

  lemma ClockOrder(m: Moment, n: Moment)
    requires Proper(m) && Proper(n)
    ensures Clock(m) < 86400
    ensures Clock(m) < Clock(n) <==>
            m.hour < n.hour || (m.hour == n.hour && (m.minute < n.minute || (m.minute == n.minute
                                                                             && m.second < n.second)))
    ensures Clock(m) == Clock(n) <==> m.hour == n.hour && m.minute == n.minute && m.second == n.second
  {
  }

  // ---------------------------------------------------------------- the stored form

  function TimeText(m: Moment): string {
    Padded(m.hour, 2) + ([':'] + (Padded(m.minute, 2) + ([':'] + Padded(m.second, 2))))
  }

  /** "%Y-%m-%d" */
  function DayText(m: Moment): (s: string)
    ensures |s| == 10
  {
    Padded(m.year, 4) + (['-'] + (Padded(m.month, 2) + (['-'] + Padded(m.day, 2))))
  }

  /** "%Y-%m-%d %H:%M:%S" */
  function Text(m: Moment): string {
    DayText(m) + ([' '] + TimeText(m))
  }

  lemma Widths()
    ensures Power10(2) == 100 && Power10(4) == 10000
  {
    assert Power10(1) == 10;
  }

  /** Day strings compare as days. */
  lemma DayTextOrder(m: Moment, n: Moment)
    requires Proper(m) && Proper(n)
    ensures Before(DayText(m), DayText(n)) <==> DayNumber(m) < DayNumber(n)
    ensures DayText(m) == DayText(n) <==> DayNumber(m) == DayNumber(n)
  {
    Widths();
    DayOrder(m, n);
    PaddedOrder(m.day, n.day, 2);
    SameMark('-', Padded(m.day, 2), Padded(n.day, 2));
    var x, y := ['-'] + Padded(m.day, 2), ['-'] + Padded(n.day, 2);
    FieldOrder(m.month, n.month, 2, x, y);
    SameMark('-', Padded(m.month, 2) + x, Padded(n.month, 2) + y);
    FieldOrder(m.year, n.year, 4, ['-'] + (Padded(m.month, 2) + x), ['-'] + (Padded(n.month, 2) + y));
  }

  lemma TimeTextOrder(m: Moment, n: Moment)
    requires Proper(m) && Proper(n)
    ensures Before(TimeText(m), TimeText(n)) <==> Clock(m) < Clock(n)
    ensures TimeText(m) == TimeText(n) <==> Clock(m) == Clock(n)
  {
    Widths();
    ClockOrder(m, n);
    PaddedOrder(m.second, n.second, 2);
    SameMark(':', Padded(m.second, 2), Padded(n.second, 2));
    var x, y := [':'] + Padded(m.second, 2), [':'] + Padded(n.second, 2);
    FieldOrder(m.minute, n.minute, 2, x, y);
    SameMark(':', Padded(m.minute, 2) + x, Padded(n.minute, 2) + y);
    FieldOrder(m.hour, n.hour, 2, [':'] + (Padded(m.minute, 2) + x), [':'] + (Padded(n.minute, 2) + y));
  }

  /** Comparing two stored timestamps as text is comparing them as times. */
  lemma TextOrder(m: Moment, n: Moment)
    requires Proper(m) && Proper(n)
    ensures Before(Text(m), Text(n)) <==> Seconds(m) < Seconds(n)
    ensures Text(m) == Text(n) <==> Seconds(m) == Seconds(n)
  {
    DayTextOrder(m, n);
    TimeTextOrder(m, n);
    ClockOrder(m, n);
    ClockOrder(n, m);
    SameMark(' ', TimeText(m), TimeText(n));
    BeforeConcat(DayText(m), DayText(n), [' '] + TimeText(m), [' '] + TimeText(n));
    assert Text(m)[..10] == DayText(m) && Text(n)[..10] == DayText(n);
    assert Text(m)[10..] == [' '] + TimeText(m) && Text(n)[10..] == [' '] + TimeText(n);
  }

  // ---------------------------------------------------------------- ISO weeks

  /** Weeks run from Monday to Sunday. */
  function WeekIndex(m: Moment): nat
    requires Proper(m)
  {
    (DayNumber(m) - 1) / 7
  }

  function Thursday(m: Moment): nat
    requires Proper(m)
  {
    7 * WeekIndex(m) + 4
  }

  /** The year that holds the week's Thursday. */
  function IsoYear(m: Moment): nat
    requires Proper(m)
  {
    if Thursday(m) <= YearStart(m.year) then m.year - 1
    else if Thursday(m) > YearStart(m.year + 1) then m.year + 1
    else m.year
  }

  function IsoWeek(m: Moment): nat
    requires Proper(m)
  {
    if Thursday(m) <= YearStart(IsoYear(m)) then 0 else (Thursday(m) - YearStart(IsoYear(m)) - 1) / 7 + 1
  }

  lemma IsoYearHolds(m: Moment)
    requires Proper(m)
    ensures IsoYear(m) >= 999 && YearStart(IsoYear(m)) < Thursday(m) <= YearStart(IsoYear(m) + 1)
    ensures 1 <= IsoWeek(m) <= 53
  {
    hide YearStart, Leap, DaysBefore;
    DayOrder(m, m);
    YearLength(m.year);
    YearLength(m.year - 1);
    YearLength(m.year + 1);
    YearLength(IsoYear(m));
    assert DayNumber(m) - 4 < Thursday(m) < DayNumber(m) + 4;
  }

  predicate FourDigitWeek(m: Moment) {
    Proper(m) && 1000 <= IsoYear(m) <= 9999
  }

  /** "%G-W%V" */
  function WeekText(m: Moment): string
    requires Proper(m)
  {
    Padded(IsoYear(m), 4) + (['-'] + (['W'] + Padded(IsoWeek(m), 2)))
  }

  /** The week of the year's 4th of January is its first, and the others are counted from there: the
      rule of ISO 8601:2004, section 2.2.10. */
  lemma WeeksCountFromJanuary(m: Moment)
    requires Proper(m)
    ensures var first, next := (YearStart(IsoYear(m)) + 3) / 7, (YearStart(IsoYear(m) + 1) + 3) / 7;
            first <= WeekIndex(m) < next && IsoWeek(m) == WeekIndex(m) - first + 1
  {
    hide YearStart, Leap, IsoYear;
    IsoYearHolds(m);
    YearLength(IsoYear(m));
  }

  lemma FourthOfJanuary(m: Moment)
    requires Proper(m) && m.month == 1 && m.day == 4
    ensures WeekIndex(m) == (YearStart(m.year) + 3) / 7
  {
  }

  lemma WeeksFrom(start: nat, a: nat, b: nat)
    requires start < 7 * a + 4 && start < 7 * b + 4
    ensures (7 * a + 4 - start - 1) / 7 < (7 * b + 4 - start - 1) / 7 <==> a < b
    ensures (7 * a + 4 - start - 1) / 7 == (7 * b + 4 - start - 1) / 7 <==> a == b
  {
    var d := 7 * a + 4 - start - 1;
    assert 7 * b + 4 - start - 1 == d + 7 * (b - a);
  }

  lemma LaterYearLaterWeek(m: Moment, n: Moment)
    requires Proper(m) && Proper(n) && IsoYear(m) < IsoYear(n)
    ensures WeekIndex(m) < WeekIndex(n)
  {
    hide YearStart, IsoYear;
    IsoYearHolds(m);
    IsoYearHolds(n);
    if IsoYear(m) + 1 < IsoYear(n) {
      YearsApart(IsoYear(m) + 1, IsoYear(n));
    }
    assert Thursday(m) < Thursday(n);
  }

  /** The ISO year and then the ISO week decide which week comes first. */
  lemma IsoOrder(m: Moment, n: Moment)
    requires Proper(m) && Proper(n)
    ensures WeekIndex(m) < WeekIndex(n) <==> IsoYear(m) < IsoYear(n) || (IsoYear(m) == IsoYear(n)
                                                                         && IsoWeek(m) < IsoWeek(n))
    ensures WeekIndex(m) == WeekIndex(n) <==> IsoYear(m) == IsoYear(n) && IsoWeek(m) == IsoWeek(n)
  {
    hide YearStart, WeekIndex, IsoYear;
    IsoYearHolds(m);
    IsoYearHolds(n);
    if IsoYear(m) < IsoYear(n) {
      LaterYearLaterWeek(m, n);
    } else if IsoYear(n) < IsoYear(m) {
      LaterYearLaterWeek(n, m);
    } else {
      WeeksFrom(YearStart(IsoYear(m)), WeekIndex(m), WeekIndex(n));
    }
  }

  // ---------------------------------------------------------------- the forms, character by character

  lemma TwoDigits(n: nat)
    requires n < 100
    ensures Padded(n, 2) == [DIGITS[n / 10], DIGITS[n % 10]]
  {
    assert Padded(n / 10, 1) == [DIGITS[n / 10]];
  }

  lemma Tens(n: nat)
    ensures n / 10 / 10 == n / 100 && n / 100 / 10 == n / 1000 && (n < 10_000 ==> n / 100 < 100)
  {
  }

  lemma FourDigits(n: nat)
    requires n < 10_000
    ensures Padded(n, 4) == [DIGITS[n / 1000], DIGITS[n / 100 % 10], DIGITS[n / 10 % 10], DIGITS[n % 10]]
  {
    Tens(n);
    TwoDigits(n / 100);
    assert Padded(n / 10, 3) == Padded(n / 100, 2) + [DIGITS[n / 10 % 10]];
    assert Padded(n, 4) == Padded(n / 10, 3) + [DIGITS[n % 10]];
  }

  /** YYYY-MM-DD and HH:MM:SS */
  lemma DateAndTimeForm(m: Moment)
    requires Proper(m)
    ensures var y := m.year;
            DayText(m) == [DIGITS[y / 1000], DIGITS[y / 100 % 10], DIGITS[y / 10 % 10], DIGITS[y % 10], '-',
                           DIGITS[m.month / 10], DIGITS[m.month % 10], '-', DIGITS[m.day / 10], DIGITS[m.day % 10]]
    ensures Text(m) == DayText(m) + [' ', DIGITS[m.hour / 10], DIGITS[m.hour % 10], ':', DIGITS[m.minute / 10],
                                     DIGITS[m.minute % 10], ':', DIGITS[m.second / 10], DIGITS[m.second % 10]]
  {
    hide Padded, Leap;
    FourDigits(m.year);
    TwoDigits(m.month);
    TwoDigits(m.day);
    TwoDigits(m.hour);
    TwoDigits(m.minute);
    TwoDigits(m.second);
  }

  /** YYYY-Www */
  lemma WeekForm(m: Moment)
    requires FourDigitWeek(m)
    ensures var y, w := IsoYear(m), IsoWeek(m);
            WeekText(m) == [DIGITS[y / 1000], DIGITS[y / 100 % 10], DIGITS[y / 10 % 10], DIGITS[y % 10], '-', 'W',
                            DIGITS[w / 10], DIGITS[w % 10]]
  {
    hide Padded, IsoYear, IsoWeek;
    IsoYearHolds(m);
    FourDigits(IsoYear(m));
    TwoDigits(IsoWeek(m));
  }

  /** ISO week strings compare as weeks: the sorted keys are in time order, across year boundaries too. */
  lemma WeekTextOrder(m: Moment, n: Moment)
    requires FourDigitWeek(m) && FourDigitWeek(n)
    ensures Before(WeekText(m), WeekText(n)) <==> WeekIndex(m) < WeekIndex(n)
    ensures WeekText(m) == WeekText(n) <==> WeekIndex(m) == WeekIndex(n)
  {
    Widths();
    hide IsoYear, IsoWeek, WeekIndex;
    IsoOrder(m, n);
    IsoYearHolds(m);
    IsoYearHolds(n);
    PaddedOrder(IsoWeek(m), IsoWeek(n), 2);
    var x, y := ['W'] + Padded(IsoWeek(m), 2), ['W'] + Padded(IsoWeek(n), 2);
    SameMark('W', Padded(IsoWeek(m), 2), Padded(IsoWeek(n), 2));
    SameMark('-', x, y);
    FieldOrder(IsoYear(m), IsoYear(n), 4, ['-'] + x, ['-'] + y);
  }
}
