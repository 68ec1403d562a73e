/**
 The age of the oldest queued record starts from its timestamp: the fixed UTC form of
 RFC 3339, section 5.6, read by hand and turned into seconds by the era formula.
 */
module QueueAge {
  import opened Bytes

  datatype Fields = Fields(year: int, month: int, day: int, hour: int, minute: int, second: int)

  predicate Leap(y: int)
  {
    y % 4 == 0 && (y % 100 != 0 || y % 400 == 0)
  }

  function MonthLength(y: int, month: int): (n: int)
    requires 1 <= month <= 12
    ensures 28 <= n <= 31
  {
    if month == 2 then (if Leap(y) then 29 else 28)
    else if month == 4 || month == 6 || month == 9 || month == 11 then 30 else 31
  }

  /** Days before the first of a month, counted month by month. */
  function BeforeMonth(y: int, month: int): int
    requires 1 <= month <= 12
  {
    if month == 1 then 0 else BeforeMonth(y, month - 1) + MonthLength(y, month - 1)
  }

  /** Days before the first of January of a year since year 0, counted year by year. */
  function BeforeYear(y: nat): int
  {
    if y == 0 then 0 else BeforeYear(y - 1) + if Leap(y - 1) then 366 else 365
  }

  predicate Date(y: int, month: int, day: int)
  {
    1 <= month <= 12 && 1 <= day <= MonthLength(y, month)
  }

  /** The number of a day, counted from 1 January of year 0. */
  function DayCount(y: nat, month: int, day: int): int
    requires 1 <= month <= 12
  {
    BeforeYear(y) + BeforeMonth(y, month) + day - 1
  }

  /** The firmware's formula: eras of 400 years that begin in March. */
  function EraDays(y: int, month: int, day: int): int
    requires y >= 1 && 1 <= month <= 12
  {
    var shifted := if month <= 2 then y - 1 else y;
    var era := shifted / 400;
    var year := shifted - era * 400;
    var doy := (153 * (month + if month > 2 then -3 else 9) + 2) / 5 + day - 1;
    var doe := year * 365 + year / 4 - year / 100 + doy;
    era * 146097 + doe - 719468
  }

  /** Year by year is 365 days a year and the leap days of the Gregorian rule. */
  lemma {:induction false} BeforeYearClosed(y: nat)
    ensures BeforeYear(y) == 365 * y + if y == 0 then 0 else (y - 1) / 4 - (y - 1) / 100 + (y - 1) / 400 + 1
  {
    if y > 0 {
      BeforeYearClosed(y - 1);
      if y > 1 { LeapStep(y - 1); }
    }
  }

  lemma LeapStep(y: int)
    requires y >= 1
    ensures y / 4 - y / 100 + y / 400 == (y - 1) / 4 - (y - 1) / 100 + (y - 1) / 400 + if Leap(y) then 1 else 0
  {
    DivStep(y, 4);
    DivStep(y, 100);
    DivStep(y, 400);
  }

  lemma DivStep(y: int, k: int)
    requires y >= 1 && (k == 4 || k == 100 || k == 400)
    ensures y / k == (y - 1) / k + if y % k == 0 then 1 else 0
  {
  }

  lemma MonthsClosed(y: int, month: int)
    requires 1 <= month <= 12
    ensures month > 2 ==> BeforeMonth(y, month) == (153 * (month - 3) + 2) / 5 + 59 + if Leap(y) then 1 else 0
    ensures month <= 2 ==> BeforeMonth(y, month) == (153 * (month + 9) + 2) / 5 - 306
  {
    assert BeforeMonth(y, 1) == 0 && BeforeMonth(y, 2) == 31;
    var l := if Leap(y) then 1 else 0;
    assert BeforeMonth(y, 3) == 59 + l;
    assert BeforeMonth(y, 4) == 90 + l;
    assert BeforeMonth(y, 5) == 120 + l;
    assert BeforeMonth(y, 6) == 151 + l;
    assert BeforeMonth(y, 7) == 181 + l;
    assert BeforeMonth(y, 8) == 212 + l;
    assert BeforeMonth(y, 9) == 243 + l;
    assert BeforeMonth(y, 10) == 273 + l;
    assert BeforeMonth(y, 11) == 304 + l;
    assert BeforeMonth(y, 12) == 334 + l;
  }

  lemma EraUnfolded(shifted: int)
    requires shifted >= 0
    ensures var era, year := shifted / 400, shifted - shifted / 400 * 400;
      era * 146097 + year * 365 + year / 4 - year / 100 == 365 * shifted + shifted / 4 - shifted / 100 + shifted / 400
  {
    var era := shifted / 400;
    var year := shifted - era * 400;
    assert shifted / 4 == year / 4 + 100 * era;
    assert shifted / 100 == year / 100 + 4 * era;
  }

  /** For every year from 1 on, the era formula counts days exactly as the calendar does. */
  lemma EraCountsDays(y: int, month: int, day: int)
    requires y >= 1 && 1 <= month <= 12
    ensures EraDays(y, month, day) == DayCount(y, month, day) - DayCount(1970, 1, 1)
  {
    BeforeYearClosed(y);
    BeforeYearClosed(1970);
    MonthsClosed(y, month);
    if month > 2 { EraUnfolded(y); LeapStep(y); } else { EraUnfolded(y - 1); }
    hide BeforeYear, BeforeMonth, Leap;
  }

  /** Days are numbered in calendar order. */
  lemma DaysIncrease(a: Fields, b: Fields)
    requires Date(a.year, a.month, a.day) && Date(b.year, b.month, b.day) && a.year >= 1
    requires a.year < b.year || (a.year == b.year && (a.month < b.month || (a.month == b.month && a.day < b.day)))
    ensures DayCount(a.year, a.month, a.day) < DayCount(b.year, b.month, b.day)
  {
    MonthsIncrease(a.year, a.month, 12);
    if a.year < b.year {
      YearsIncrease(a.year + 1, b.year);
      MonthsIncrease(b.year, 1, b.month);
      YearLength(a.year);
    } else if a.month < b.month {
      MonthsIncrease(a.year, a.month + 1, b.month);
    }
  }

  lemma {:induction false} YearsIncrease(y: nat, z: nat)
    requires y <= z
    ensures BeforeYear(y) <= BeforeYear(z)
  {
    if y < z { YearsIncrease(y, z - 1); }
  }

  lemma YearLength(y: nat)
    ensures BeforeYear(y + 1) == BeforeYear(y) + BeforeMonth(y, 12) + MonthLength(y, 12)
  {
    MonthsClosed(y, 12);
  }

  lemma {:induction false} MonthsIncrease(y: int, m: int, n: int)
    requires 1 <= m <= n <= 12
    ensures BeforeMonth(y, m) <= BeforeMonth(y, n)
    ensures m < n ==> BeforeMonth(y, m) + MonthLength(y, m) <= BeforeMonth(y, n)
  {
    if m < n { MonthsIncrease(y, m, n - 1); }
  }

  /** The dates and times of day the firmware accepts. */
  predicate ValidFields(f: Fields)
  {
    && 2024 <= f.year <= 2099 && Date(f.year, f.month, f.day)
    && 0 <= f.hour <= 23 && 0 <= f.minute <= 59 && 0 <= f.second <= 59
  }

  /** Seconds since 1970, counted day by day. */
  function Seconds(f: Fields): int
    requires ValidFields(f)
  {
    (DayCount(f.year, f.month, f.day) - DayCount(1970, 1, 1)) * 86400 + f.hour * 3600 + f.minute * 60 + f.second
  }

  lemma SecondsFit(f: Fields)
    requires ValidFields(f)
    ensures 0 < Seconds(f) < WORD
  {
    BeforeYearClosed(2024);
    BeforeYearClosed(2099);
    BeforeYearClosed(1970);
    YearsIncrease(2024, f.year);
    YearsIncrease(f.year, 2099);
    MonthsIncrease(f.year, f.month, 12);
    MonthsIncrease(f.year, 1, f.month);
    MonthsClosed(f.year, 12);
    hide BeforeYear, BeforeMonth, MonthLength;
  }

  predicate Earlier(a: Fields, b: Fields)
  {
    a.year < b.year || (a.year == b.year &&
      (a.month < b.month || (a.month == b.month &&
        (a.day < b.day || (a.day == b.day &&
          (a.hour < b.hour || (a.hour == b.hour &&
            (a.minute < b.minute || (a.minute == b.minute && a.second < b.second)))))))))
  }

  lemma SecondsIncrease(a: Fields, b: Fields)
    requires ValidFields(a) && ValidFields(b) && Earlier(a, b)
    ensures Seconds(a) < Seconds(b)
  {
    if !(a.year == b.year && a.month == b.month && a.day == b.day) {
      DaysIncrease(a, b);
    }
    hide BeforeYear, BeforeMonth, DayCount;
  }

  predicate Digit(c: char)
  {
    '0' <= c <= '9'
  }

  function DigitChar(n: int): (c: char)
    requires 0 <= n <= 9
    ensures Digit(c) && c as int - '0' as int == n
  {
    (n + '0' as int) as char
  }

  function TwoDigits(n: int): (s: string)
    requires 0 <= n <= 99
    ensures |s| == 2
  {
    [DigitChar(n / 10), DigitChar(n % 10)]
  }

  /** The logger's own transport timestamp: `%04d-%02d-%02d %02d:%02d:%02d`, then `T` for the space and a `Z`. */
  function Print(f: Fields): (s: string)
    requires ValidFields(f)
    ensures |s| == 20
  {
    TwoDigits(f.year / 100) + TwoDigits(f.year % 100) + "-" + TwoDigits(f.month) + "-" + TwoDigits(f.day)
    + "T" + TwoDigits(f.hour) + ":" + TwoDigits(f.minute) + ":" + TwoDigits(f.second) + "Z"
  }

  /** Twenty characters with the six separators in place. */
  predicate Shaped(s: string)
  {
    |s| == 20 && s[4] == '-' && s[7] == '-' && s[10] == 'T' && s[13] == ':' && s[16] == ':' && s[19] == 'Z'
  }

  /** The number at `at`, digits only. */
  predicate DigitsAt(s: string, at: nat, length: nat)
    requires at + length <= |s|
  {
    forall i | at <= i < at + length :: Digit(s[i])
  }

  function NumberAt(s: string, at: nat, length: nat): int
    requires at + length <= |s|
  {
    if length == 0 then 0 else NumberAt(s, at, length - 1) * 10 + (s[at + length - 1] as int - '0' as int)
  }

  predicate AllDigits(s: string)
    requires |s| == 20
  {
    DigitsAt(s, 0, 4) && DigitsAt(s, 5, 2) && DigitsAt(s, 8, 2) && DigitsAt(s, 11, 2) && DigitsAt(s, 14, 2) &&
    DigitsAt(s, 17, 2)
  }

  function FieldsOf(s: string): Fields
    requires |s| == 20
  {
    Fields(NumberAt(s, 0, 4), NumberAt(s, 5, 2), NumberAt(s, 8, 2), NumberAt(s, 11, 2), NumberAt(s, 14, 2),
      NumberAt(s, 17, 2))
  }

  predicate Timestamp(s: string)
  {
    Shaped(s) && AllDigits(s) && ValidFields(FieldsOf(s))
  }

  function Start(field: nat): nat
    requires field < 6
  {
    [0, 5, 8, 11, 14, 17][field]
  }

  function Length(field: nat): nat
  {
    if field == 0 then 4 else 2
  }

  /** Read the six numbers digit by digit, stopping at the first character that is not one. */
  method ReadFields(s: string) returns (ok: bool, fields: seq<int>)
    requires |s| == 20
    ensures ok <==> AllDigits(s)
    ensures ok ==>
      |fields| == 6 && FieldsOf(s) == Fields(fields[0], fields[1], fields[2], fields[3], fields[4], fields[5])
  {
    fields := [0, 0, 0, 0, 0, 0];
    for field := 0 to 6
      invariant |fields| == 6
      invariant forall f: nat | f < field ::
        DigitsAt(s, Start(f), Length(f)) && fields[f] == NumberAt(s, Start(f), Length(f))
      invariant forall f: nat | field <= f < 6 :: fields[f] == 0
    {
      for i := 0 to Length(field)
        invariant |fields| == 6 && DigitsAt(s, Start(field), i) && fields[field] == NumberAt(s, Start(field), i)
        invariant forall f: nat | f < field ::
          DigitsAt(s, Start(f), Length(f)) && fields[f] == NumberAt(s, Start(f), Length(f))
        invariant forall f: nat | field < f < 6 :: fields[f] == 0
      {
        var digit := s[Start(field) + i];
        if !Digit(digit) {
          NotAllDigits(s, field, i);
          return false, fields;
        }
        fields := fields[field := fields[field] * 10 + (digit as int - '0' as int)];
      }
    }
    ok := true;
    assert Start(0) == 0 && Start(1) == 5 && Start(2) == 8 && Start(3) == 11 && Start(4) == 14 && Start(5) == 17;
  }

  lemma NotAllDigits(s: string, field: nat, i: nat)
    requires |s| == 20 && field < 6 && i < Length(field) && !Digit(s[Start(field) + i])
    ensures !AllDigits(s)
  {
  }

  /**
   The seconds of a timestamp, or 0 for anything that is not one. The result is the
   day-by-day count, so 32 bits never overflow.
   */
  method Epoch(s: string) returns (e: uint32)
    ensures e == if Timestamp(s) then Seconds(FieldsOf(s)) else 0
    ensures e != 0 <==> Timestamp(s)
  {
    if !Shaped(s) {
      return 0;
    }
    var ok, fields := ReadFields(s);
    if !ok {
      return 0;
    }
    var y, mo, d, h, mi, sec := fields[0], fields[1], fields[2], fields[3], fields[4], fields[5];
    if y < 2024 || y > 2099 || mo < 1 || mo > 12 || h > 23 || mi > 59 || sec > 59 {
      return 0;
    }
    if d < 1 || d > MonthLength(y, mo) {
      return 0;
    }
    NumbersAreNatural(s);
    SecondsFit(FieldsOf(s));
    EraCountsDays(y, mo, d);
    hide EraDays, DayCount;
    e := EraDays(y, mo, d) * 86400 + h * 3600 + mi * 60 + sec;
  }

  lemma NumbersAreNatural(s: string)
    requires |s| == 20 && AllDigits(s)
    ensures FieldsOf(s).hour >= 0 && FieldsOf(s).minute >= 0 && FieldsOf(s).second >= 0
  {
    assert NumberAt(s, 11, 1) >= 0 && NumberAt(s, 14, 1) >= 0 && NumberAt(s, 17, 1) >= 0;
  }

  lemma TwoDigitsRead(s: string, at: nat, n: int)
    requires at + 2 <= |s| && 0 <= n <= 99 && s[at] == TwoDigits(n)[0] && s[at + 1] == TwoDigits(n)[1]
    ensures DigitsAt(s, at, 2) && NumberAt(s, at, 2) == n
  {
    assert NumberAt(s, at, 1) == s[at] as int - '0' as int;
  }

  lemma FourDigitsRead(s: string, at: nat, n: int)
    requires at + 4 <= |s| && 0 <= n <= 9999
    requires s[at] == TwoDigits(n / 100)[0] && s[at + 1] == TwoDigits(n / 100)[1]
    requires s[at + 2] == TwoDigits(n % 100)[0] && s[at + 3] == TwoDigits(n % 100)[1]
    ensures DigitsAt(s, at, 4) && NumberAt(s, at, 4) == n
  {
    TwoDigitsRead(s, at, n / 100);
    assert NumberAt(s, at, 3) == NumberAt(s, at, 2) * 10 + (s[at + 2] as int - '0' as int);
    assert NumberAt(s, at, 4) == NumberAt(s, at, 3) * 10 + (s[at + 3] as int - '0' as int);
  }

  /** What the logger prints is read back as the fields it was printed from. */
  lemma PrintIsRead(f: Fields)
    requires ValidFields(f)
    ensures Timestamp(Print(f)) && FieldsOf(Print(f)) == f
  {
    var s := Print(f);
    hide NumberAt, DigitsAt, TwoDigits, Date;
    FourDigitsRead(s, 0, f.year);
    TwoDigitsRead(s, 5, f.month);
    TwoDigitsRead(s, 8, f.day);
    TwoDigitsRead(s, 11, f.hour);
    TwoDigitsRead(s, 14, f.minute);
    TwoDigitsRead(s, 17, f.second);
  }

  lemma TwoDigitsPrint(s: string, at: nat)
    requires at + 2 <= |s| && DigitsAt(s, at, 2)
    ensures 0 <= NumberAt(s, at, 2) <= 99 && TwoDigits(NumberAt(s, at, 2)) == s[at..at + 2]
  {
    assert Digit(s[at]) && Digit(s[at + 1]);
    assert NumberAt(s, at, 1) == s[at] as int - '0' as int;
  }

  lemma FourDigitsPrint(s: string, at: nat)
    requires at + 4 <= |s| && DigitsAt(s, at, 4)
    ensures 0 <= NumberAt(s, at, 4) <= 9999
    ensures TwoDigits(NumberAt(s, at, 4) / 100) == s[at..at + 2] &&
            TwoDigits(NumberAt(s, at, 4) % 100) == s[at + 2..at + 4]
  {
    TwoDigitsPrint(s, at);
    TwoDigitsPrint(s, at + 2);
    assert NumberAt(s, at + 2, 1) == s[at + 2] as int - '0' as int;
    assert NumberAt(s, at, 3) == NumberAt(s, at, 2) * 10 + (s[at + 2] as int - '0' as int);
    assert NumberAt(s, at, 4) == NumberAt(s, at, 2) * 100 + NumberAt(s, at + 2, 2);
  }

  /** The strings accepted are exactly those the logger can print for a valid date and time. */
  lemma TimestampsArePrinted(s: string)
    ensures Timestamp(s) <==> exists f :: ValidFields(f) && s == Print(f)
  {
    if Timestamp(s) {
      FourDigitsPrint(s, 0);
      TwoDigitsPrint(s, 5);
      TwoDigitsPrint(s, 8);
      TwoDigitsPrint(s, 11);
      TwoDigitsPrint(s, 14);
      TwoDigitsPrint(s, 17);
      hide NumberAt, DigitsAt, TwoDigits, Date;
      assert Print(FieldsOf(s)) == s;
    }
    if f :| ValidFields(f) && s == Print(f) { PrintIsRead(f); }
  }

  /** `s` comes before `t` character by character. */
  ghost predicate Before(s: string, t: string, k: nat)
  {
    k < |s| && k < |t| && s[..k] == t[..k] && s[k] < t[k]
  }

  lemma SameNumber(s: string, t: string, at: nat, length: nat, k: nat)
    requires at + length <= k <= |s| && k <= |t| && s[..k] == t[..k]
    ensures NumberAt(s, at, length) == NumberAt(t, at, length)
  {
    if length > 0 {
      SameNumber(s, t, at, length - 1, k);
      assert s[..k][at + length - 1] == t[..k][at + length - 1];
    }
  }

  lemma {:induction false} LessNumber(s: string, t: string, at: nat, length: nat, k: nat)
    requires at + length <= |s| && at + length <= |t| && DigitsAt(s, at, length) && DigitsAt(t, at, length)
    requires Before(s, t, k) && at <= k < at + length
    ensures NumberAt(s, at, length) < NumberAt(t, at, length)
  {
    if k == at + length - 1 {
      SameNumber(s, t, at, length - 1, k);
    } else {
      LessNumber(s, t, at, length - 1, k);
      assert Digit(s[at + length - 1]) && Digit(t[at + length - 1]);
    }
  }

  lemma BeforeIsEarlier(s: string, t: string, k: nat)
    requires Timestamp(s) && Timestamp(t) && Before(s, t, k)
    ensures Earlier(FieldsOf(s), FieldsOf(t))
  {
    if k >= 4 { SameNumber(s, t, 0, 4, k); }
    if k >= 7 { SameNumber(s, t, 5, 2, k); }
    if k >= 10 { SameNumber(s, t, 8, 2, k); }
    if k >= 13 { SameNumber(s, t, 11, 2, k); }
    if k >= 16 { SameNumber(s, t, 14, 2, k); }
    if k < 4 { LessNumber(s, t, 0, 4, k); }
    else if 5 <= k < 7 { LessNumber(s, t, 5, 2, k); }
    else if 8 <= k < 10 { LessNumber(s, t, 8, 2, k); }
    else if 11 <= k < 13 { LessNumber(s, t, 11, 2, k); }
    else if 14 <= k < 16 { LessNumber(s, t, 14, 2, k); }
    else if 17 <= k < 19 { LessNumber(s, t, 17, 2, k); }
    hide NumberAt, DigitsAt, ValidFields;
  }

  lemma FirstDifference(s: string, t: string) returns (k: nat)
    requires |s| == |t| && s != t
    ensures Before(s, t, k) || Before(t, s, k)
  {
    k := 0;
    while s[k] == t[k]
      invariant k < |s| && s[..k] == t[..k]
      invariant exists i :: k <= i < |s| && s[i] != t[i]
      decreases |s| - k
    {
      var i :| k <= i < |s| && s[i] != t[i];
      assert s[..k + 1] == s[..k] + [s[k]] == t[..k + 1];
      k := k + 1;
    }
  }

  /** Timestamps sort as text exactly as the moments they name: the oldest text is the oldest record. */
  lemma TextOrderIsTimeOrder(s: string, t: string)
    requires Timestamp(s) && Timestamp(t)
    ensures (exists k :: Before(s, t, k)) <==> Seconds(FieldsOf(s)) < Seconds(FieldsOf(t))
  {
    if s != t {
      var k := FirstDifference(s, t);
      if Before(s, t, k) {
        BeforeIsEarlier(s, t, k);
        SecondsIncrease(FieldsOf(s), FieldsOf(t));
      } else {
        BeforeIsEarlier(t, s, k);
        SecondsIncrease(FieldsOf(t), FieldsOf(s));
      }
    }
    if i :| Before(s, t, i) {
      BeforeIsEarlier(s, t, i);
      SecondsIncrease(FieldsOf(s), FieldsOf(t));
    }
    hide Seconds, FieldsOf, Timestamp;
  }

  /**
   The age in seconds of a record, known only if its time is and the clock is neither behind it nor
   2^32 seconds ahead.
   */
  method Age(recordEpoch: uint32, now: int, previous: uint32) returns (known: bool, seconds: uint32)
    ensures known <==> recordEpoch != 0 && 0 <= now - recordEpoch < WORD
    ensures seconds == if known then now - recordEpoch else previous
  {
    if recordEpoch == 0 || now < recordEpoch || now - recordEpoch > WORD - 1 {
      return false, previous;
    }
    known, seconds := true, now - recordEpoch;
  }

  /**
   The age of the record a timestamp belongs to. At the moment another timestamp names, it is
   known exactly if the record's does not sort behind that one, and is the time between the two.
   */
  method RecordAge(s: string, now: int) returns (known: bool, seconds: uint32)
    ensures known <==> Timestamp(s) && 0 <= now - Seconds(FieldsOf(s)) < WORD
    ensures known ==> seconds == now - Seconds(FieldsOf(s))
    ensures forall t | Timestamp(t) && Timestamp(s) && Seconds(FieldsOf(t)) == now :: known <==>
      !(exists k :: Before(t, s, k))
  {
    var e := Epoch(s);
    known, seconds := Age(e, now, 0);
    forall t | Timestamp(t) && Timestamp(s) && Seconds(FieldsOf(t)) == now
      ensures known <==> !(exists k :: Before(t, s, k))
    {
      TextOrderIsTimeOrder(t, s);
      SecondsFit(FieldsOf(t));
      SecondsFit(FieldsOf(s));
      hide Seconds, FieldsOf, Timestamp, Before;
    }
  }
}
