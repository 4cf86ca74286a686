/** FIX UTC timestamps: from nanoseconds to text and back under the Gregorian calendar. */
module Calendar {
  import opened Basics
  import opened Wrappers
  import opened Decimals

  // ----- The Gregorian reference -----

  predicate Leap(year: nat) {
    (year % 4 == 0 && year % 100 != 0) || year % 400 == 0
  }

  function YearDays(year: nat): (n: nat)
    ensures n == 365 || n == 366
  {
    if Leap(year) then 366 else 365
  }

  /** Days in the years before `year`, counted from year one. */
  function YearStart(year: nat): int
    requires year > 0
  {
    var y := year - 1;
    365 * y + y / 4 - y / 100 + y / 400
  }

  function MonthDays(year: nat, month: nat): (n: nat)
    requires 1 <= month <= 12
    ensures 28 <= n <= 31
  {
    if month == 2 then (if Leap(year) then 29 else 28)
    else if month == 4 || month == 6 || month == 9 || month == 11 then 30
    else 31
  }

  /** Days in the months before `month`. */
  function MonthStart(year: nat, month: nat): nat
    requires 1 <= month <= 13
  {
    if month == 1 then 0 else MonthStart(year, month - 1) + MonthDays(year, month - 1)
  }

  datatype Date = Date(year: nat, month: nat, day: nat)

  predicate IsDate(d: Date) {
    d.year > 0 && 1 <= d.month <= 12 && 1 <= d.day <= MonthDays(d.year, d.month)
  }

  /** Days since 1970-01-01. */
  function DayNumber(d: Date): int
    requires IsDate(d)
  {
    YearStart(d.year) - YearStart(1970) + MonthStart(d.year, d.month) + d.day - 1
  }

  datatype Stamp = Stamp(date: Date, hour: nat, minute: nat, second: nat, ms: nat)

  predicate IsStamp(t: Stamp) {
    IsDate(t.date) && t.hour < 24 && t.minute < 60 && t.second < 60 && t.ms < 1000
  }

  /** Milliseconds since the epoch. */
  function Millis(t: Stamp): int
    requires IsStamp(t)
  {
    (((DayNumber(t.date) * 24 + t.hour) * 60 + t.minute) * 60 + t.second) * 1000 + t.ms
  }

  lemma YearStep(year: nat)
    requires year > 0
    ensures YearStart(year + 1) == YearStart(year) + YearDays(year)
  {
    Every(year, 4);
    Every(year, 100);
    Every(year, 400);
  }

  /** A quotient grows by one exactly at the multiples. */
  lemma Every(year: nat, n: nat)
    requires year > 0 && (n == 4 || n == 100 || n == 400)
    ensures year / n - (year - 1) / n == if year % n == 0 then 1 else 0
  {
  }

  lemma {:induction false} YearOrder(a: nat, b: nat)
    requires 0 < a <= b
    ensures YearStart(a) + 365 * (b - a) <= YearStart(b)
    ensures a < b ==> YearStart(a) + YearDays(a) <= YearStart(b)
  {
    if a < b {
      YearOrder(a, b - 1);
      YearStep(b - 1);
    }
  }

  lemma MonthsMakeYear(year: nat)
    ensures MonthStart(year, 13) == YearDays(year)
  {
    assert MonthStart(year, 2) == 31;
    assert MonthStart(year, 3) == YearDays(year) - 306;
    assert MonthStart(year, 5) == YearDays(year) - 245;
    assert MonthStart(year, 7) == YearDays(year) - 184;
    assert MonthStart(year, 9) == YearDays(year) - 122;
    assert MonthStart(year, 11) == YearDays(year) - 61;
  }

  lemma {:induction false} MonthOrder(year: nat, a: nat, b: nat)
    requires 1 <= a < b <= 13
    ensures MonthStart(year, a) + MonthDays(year, a) <= MonthStart(year, b)
  {
    if a < b - 1 {
      MonthOrder(year, a, b - 1);
    }
  }

  predicate Earlier(a: Date, b: Date) {
    a.year < b.year || (a.year == b.year && (a.month < b.month || (a.month == b.month && a.day < b.day)))
  }

  /** Day numbers follow the calendar order of dates. */
  lemma DayOrder(a: Date, b: Date)
    requires IsDate(a) && IsDate(b)
    ensures DayNumber(a) < DayNumber(b) <==> Earlier(a, b)
    ensures DayNumber(a) == DayNumber(b) <==> a == b
  {
    if Earlier(a, b) {
      EarlierDay(a, b);
    } else if Earlier(b, a) {
      EarlierDay(b, a);
    }
  }

  lemma EarlierDay(a: Date, b: Date)
    requires IsDate(a) && IsDate(b) && Earlier(a, b)
    ensures DayNumber(a) < DayNumber(b)
  {
    if a.year < b.year {
      MonthOrder(a.year, a.month, 13);
      MonthsMakeYear(a.year);
      YearOrder(a.year, b.year);
    } else if a.month < b.month {
      MonthOrder(a.year, a.month, b.month);
    }
  }

  predicate EarlierStamp(a: Stamp, b: Stamp) {
    || Earlier(a.date, b.date)
    || (a.date == b.date && (a.hour < b.hour || (a.hour == b.hour && (a.minute < b.minute ||
         (a.minute == b.minute && (a.second < b.second || (a.second == b.second && a.ms < b.ms)))))))
  }

  /** Mixed radix: a larger leading part decides. */
  lemma Radix(a: int, b: int, r: nat, x: nat, y: nat)
    requires x < r && y < r
    ensures a * r + x < b * r + y <==> a < b || (a == b && x < y)
  {
    if a < b {
      MulStep(a, b, r);
    } else if a > b {
      MulStep(b, a, r);
    }
  }

  /** Milliseconds follow the order of stamps. */
  lemma StampOrder(a: Stamp, b: Stamp)
    requires IsStamp(a) && IsStamp(b)
    ensures Millis(a) < Millis(b) <==> EarlierStamp(a, b)
  {
    DayOrder(a.date, b.date);
    hide DayNumber;
    var d, d' := DayNumber(a.date), DayNumber(b.date);
    Radix(d, d', 24, a.hour, b.hour);
    Radix(d * 24 + a.hour, d' * 24 + b.hour, 60, a.minute, b.minute);
    Radix((d * 24 + a.hour) * 60 + a.minute, (d' * 24 + b.hour) * 60 + b.minute, 60, a.second, b.second);
    Radix(((d * 24 + a.hour) * 60 + a.minute) * 60 + a.second, ((d' * 24 + b.hour) * 60 + b.minute) * 60 + b.second,
          1000, a.ms, b.ms);
  }

  // ----- The loops -----

  /** Finds the year by taking whole years off, then the month by taking whole months off. */
  method Civil(days: nat) returns (d: Date)
    ensures IsDate(d) && DayNumber(d) == days && d.year >= 1970
  {
    var year, left: nat := 1970, days;
    while left >= YearDays(year)
      invariant year >= 1970 && YearStart(year) - YearStart(1970) + left == days
    {
      YearStep(year);
      left := left - YearDays(year);
      year := year + 1;
    }
    var month := 1;
    MonthsMakeYear(year);
    while month <= 12 && left >= MonthDays(year, month)
      invariant 1 <= month <= 13 && left < YearDays(year) - MonthStart(year, month)
      invariant YearStart(year) - YearStart(1970) + MonthStart(year, month) + left == days
      decreases left
    {
      left := left - MonthDays(year, month);
      month := month + 1;
    }
    d := Date(year, month, left + 1);
  }

  // ----- The text -----

  /** `hh:mm:ss.mmm`. */
  function ClockText(t: Stamp): (s: string)
    ensures |s| == 12
  {
    LowDigits(t.hour, 2) +
    (":" + (LowDigits(t.minute, 2) + (":" + (LowDigits(t.second, 2) + ("." + LowDigits(t.ms, 3))))))
  }

  /** `YYYYMMDD`. */
  function DateText(d: Date): (s: string)
    ensures |s| == 8
  {
    LowDigits(d.year, 4) + (LowDigits(d.month, 2) + LowDigits(d.day, 2))
  }

  /** `YYYYMMDD-hh:mm:ss.mmm`. */
  function Text(t: Stamp): (s: string)
    ensures |s| == 21
  {
    DateText(t.date) + ("-" + ClockText(t))
  }

  lemma YearBound(d: Date)
    requires IsDate(d) && d.year >= 1970 && DayNumber(d) <= U64_MAX / 86_400_000_000_000
    ensures d.year < 10000
  {
    YearOrder(1970, d.year);
  }

  lemma Powers()
    ensures Pow10(2) == 100 && Pow10(3) == 1000 && Pow10(4) == 10000
  {
    assert Pow10(1) == 10;
  }

  // ----- Byte order is time order -----

  lemma SameHead(a: string, b: string, b': string)
    ensures Lex(a + b, a + b') <==> Lex(b, b')
    ensures a + b == a + b' <==> b == b'
  {
    LexSelf(a);
    LexConcat(a, a, b, b');
    assert b == (a + b)[|a|..] && b' == (a + b')[|a|..];
  }

  lemma HeadFirst(m: nat, n: nat, width: nat, b: string, b': string)
    requires m < Pow10(width) && n < Pow10(width)
    ensures Lex(LowDigits(m, width) + b, LowDigits(n, width) + b') <==> m < n || (m == n && Lex(b, b'))
    ensures LowDigits(m, width) + b == LowDigits(n, width) + b' <==> m == n && b == b'
  {
    LexLow(m, n, width);
    LexConcat(LowDigits(m, width), LowDigits(n, width), b, b');
    var x, y := LowDigits(m, width) + b, LowDigits(n, width) + b';
    assert x[..width] == LowDigits(m, width) && y[..width] == LowDigits(n, width);
    assert x[width..] == b && y[width..] == b';
  }

  lemma DateTextOrder(a: Date, b: Date)
    requires IsDate(a) && IsDate(b) && a.year < 10000 && b.year < 10000
    ensures Lex(DateText(a), DateText(b)) <==> Earlier(a, b)
    ensures DateText(a) == DateText(b) <==> a == b
  {
    hide LowDigits;
    hide Lex;
    hide Pow10;
    Powers();
    HeadFirst(a.year, b.year, 4, LowDigits(a.month, 2) + LowDigits(a.day, 2),
        LowDigits(b.month, 2) + LowDigits(b.day, 2));
    HeadFirst(a.month, b.month, 2, LowDigits(a.day, 2), LowDigits(b.day, 2));
    LexLow(a.day, b.day, 2);
  }

  /** `ss.mmm` and before it `mm:`. */
  function Seconds(t: Stamp): string {
    LowDigits(t.second, 2) + ("." + LowDigits(t.ms, 3))
  }

  lemma SecondsOrder(a: Stamp, b: Stamp)
    requires IsStamp(a) && IsStamp(b)
    ensures Lex(Seconds(a), Seconds(b)) <==> a.second < b.second || (a.second == b.second && a.ms < b.ms)
  {
    hide LowDigits;
    hide Lex;
    hide Pow10;
    Powers();
    HeadFirst(a.second, b.second, 2, "." + LowDigits(a.ms, 3), "." + LowDigits(b.ms, 3));
    SameHead(".", LowDigits(a.ms, 3), LowDigits(b.ms, 3));
    LexLow(a.ms, b.ms, 3);
  }

  lemma ClockTextOrder(a: Stamp, b: Stamp)
    requires IsStamp(a) && IsStamp(b) && a.date == b.date
    ensures Lex(ClockText(a), ClockText(b)) <==> EarlierStamp(a, b)
  {
    hide LowDigits;
    hide Lex;
    hide Pow10;
    Powers();
    var x, y := Seconds(a), Seconds(b);
    SecondsOrder(a, b);
    SameHead(":", x, y);
    HeadFirst(a.minute, b.minute, 2, ":" + x, ":" + y);
    SameHead(":", LowDigits(a.minute, 2) + (":" + x), LowDigits(b.minute, 2) + (":" + y));
    HeadFirst(a.hour, b.hour, 2, ":" + (LowDigits(a.minute, 2) + (":" + x)),
        ":" + (LowDigits(b.minute, 2) + (":" + y)));
  }

  /** Timestamps sort as bytes exactly as they sort in time. */
  lemma TextOrder(a: Stamp, b: Stamp)
    requires IsStamp(a) && IsStamp(b) && a.date.year < 10000 && b.date.year < 10000
    ensures Lex(Text(a), Text(b)) <==> Millis(a) < Millis(b)
  {
    hide DateText;
    hide ClockText;
    hide Lex;
    hide Millis;
    StampOrder(a, b);
    DateTextOrder(a.date, b.date);
    LexConcat(DateText(a.date), DateText(b.date), "-" + ClockText(a), "-" + ClockText(b));
    SameHead("-", ClockText(a), ClockText(b));
    if a.date == b.date {
      ClockTextOrder(a, b);
    }
  }

  // ----- Reading back -----

  /** Reads the fields at their fixed places. */
  ghost function Decode(s: string): Option<Stamp> {
    if |s| == 21 && AllDigits(s[0..4]) && AllDigits(s[4..6]) && AllDigits(s[6..8]) && AllDigits(s[9..11])
       && AllDigits(s[12..14]) && AllDigits(s[15..17]) && AllDigits(s[18..21])
    then Some(Stamp(Date(NatOf(s[0..4]), NatOf(s[4..6]), NatOf(s[6..8])),
                    NatOf(s[9..11]), NatOf(s[12..14]), NatOf(s[15..17]), NatOf(s[18..21])))
    else None
  }

  lemma DateParts(t: Stamp)
    ensures var s := Text(t);
            && s[0..4] == LowDigits(t.date.year, 4) && s[4..6] == LowDigits(t.date.month, 2)
            && s[6..8] == LowDigits(t.date.day, 2)
  {
    hide LowDigits;
    hide ClockText;
  }

  lemma ClockParts(t: Stamp)
    ensures var s := ClockText(t);
            && s[0..2] == LowDigits(t.hour, 2) && s[3..5] == LowDigits(t.minute, 2)
            && s[6..8] == LowDigits(t.second, 2) && s[9..12] == LowDigits(t.ms, 3)
  {
    hide LowDigits;
  }

  lemma TextParts(t: Stamp)
    ensures var s := Text(t);
            && s[9..11] == LowDigits(t.hour, 2) && s[12..14] == LowDigits(t.minute, 2)
            && s[15..17] == LowDigits(t.second, 2) && s[18..21] == LowDigits(t.ms, 3)
  {
    hide LowDigits;
    hide ClockText;
    hide DateText;
    ClockParts(t);
    var s, c := Text(t), ClockText(t);
    assert forall i :: 0 <= i < 12 ==> s[9 + i] == c[i];
    assert s[9..11] == c[0..2] && s[12..14] == c[3..5] && s[15..17] == c[6..8] && s[18..21] == c[9..12];
  }

  /** A printed stamp reads back as itself. */
  lemma DecodeText(t: Stamp)
    requires IsStamp(t) && t.date.year < 10000
    ensures Decode(Text(t)) == Some(t)
  {
    hide Text;
    hide LowDigits;
    hide NatOf;
    hide Pow10;
    Powers();
    DateParts(t);
    TextParts(t);
    NatOfLow(t.date.year, 4);
    NatOfLow(t.date.month, 2);
    NatOfLow(t.date.day, 2);
    NatOfLow(t.hour, 2);
    NatOfLow(t.minute, 2);
    NatOfLow(t.second, 2);
    NatOfLow(t.ms, 3);
  }

  // ----- Formatting -----

  lemma DateBytes(d: Date)
    requires IsDate(d) && d.year < 10000
    ensures DateText(d) ==
            [Digit(d.year / 1000), Digit(d.year / 100 % 10), Digit(d.year / 10 % 10), Digit(d.year % 10),
             Digit(d.month / 10), Digit(d.month % 10), Digit(d.day / 10), Digit(d.day % 10)]
  {
    hide LowDigits;
    LowFour(d.year);
    LowTwo(d.month);
    LowTwo(d.day);
  }

  lemma ClockBytes(t: Stamp)
    requires IsStamp(t)
    ensures ClockText(t) ==
            [Digit(t.hour / 10), Digit(t.hour % 10), ':', Digit(t.minute / 10), Digit(t.minute % 10), ':',
             Digit(t.second / 10), Digit(t.second % 10), '.', Digit(t.ms / 100), Digit(t.ms / 10 % 10),
             Digit(t.ms % 10)]
  {
    hide LowDigits;
    LowTwo(t.hour);
    LowTwo(t.minute);
    LowTwo(t.second);
    LowThree(t.ms);
  }

  lemma ClockOf(nanos: nat)
    ensures var millis := nanos / 1_000_000;
            var secs := millis / 1000;
            var mins := secs / 60;
            var hours := mins / 60;
            && (((hours / 24 * 24 + hours % 24) * 60 + mins % 60) * 60 + secs % 60) * 1000 + millis % 1000 == millis
            && (nanos <= U64_MAX ==> hours / 24 <= U64_MAX / 86_400_000_000_000)
  {
    var millis := nanos / 1_000_000;
    var secs := millis / 1000;
    var mins := secs / 60;
    var hours := mins / 60;
    assert hours / 24 * 24 + hours % 24 == hours;
    assert hours * 60 + mins % 60 == mins;
    assert mins * 60 + secs % 60 == secs;
  }

  /** The UTC text of a nanosecond count, as 21 bytes. */
  method FormatFixTimestamp(nanos: nat) returns (buf: array<char>, ghost t: Stamp)
    requires nanos <= U64_MAX
    ensures fresh(buf) && buf[..] == Text(t)
    ensures IsStamp(t) && t.date.year < 10000 && Millis(t) == nanos / 1_000_000
    ensures Decode(buf[..]) == Some(t)
  {
    hide Decode;
    var millis := nanos / 1_000_000;
    var secs, ms := millis / 1000, millis % 1000;
    var mins, second := secs / 60, secs % 60;
    var hours, minute := mins / 60, mins % 60;
    var days, hour := hours / 24, hours % 24;
    var date := Civil(days);
    ClockOf(nanos);
    YearBound(date);
    t := Stamp(date, hour, minute, second, ms);
    buf := new char[21];
    WriteDate(buf, date);
    WriteClock(buf, hour, minute, second, ms, t);
    assert buf[..] == buf[..9] + buf[9..];
    assert DateText(date) + "-" + ClockText(t) == Text(t);
    DecodeText(t);
  }

  method WriteDate(buf: array<char>, d: Date)
    requires buf.Length == 21 && IsDate(d) && d.year < 10000
    modifies buf
    ensures buf[..9] == DateText(d) + "-"
  {
    hide DateText;
    DateBytes(d);
    buf[0] := Digit(d.year / 1000);
    buf[1] := Digit(d.year / 100 % 10);
    buf[2] := Digit(d.year / 10 % 10);
    buf[3] := Digit(d.year % 10);
    buf[4] := Digit(d.month / 10);
    buf[5] := Digit(d.month % 10);
    buf[6] := Digit(d.day / 10);
    buf[7] := Digit(d.day % 10);
    buf[8] := '-';
  }

  method WriteClock(buf: array<char>, hour: nat, minute: nat, second: nat, ms: nat, ghost t: Stamp)
    requires buf.Length == 21 && IsStamp(t) && t == Stamp(t.date, hour, minute, second, ms)
    modifies buf
    ensures buf[..9] == old(buf[..9]) && buf[9..] == ClockText(t)
  {
    hide ClockText;
    ClockBytes(t);
    buf[9] := Digit(hour / 10);
    buf[10] := Digit(hour % 10);
    buf[11] := ':';
    buf[12] := Digit(minute / 10);
    buf[13] := Digit(minute % 10);
    buf[14] := ':';
    buf[15] := Digit(second / 10);
    buf[16] := Digit(second % 10);
    buf[17] := '.';
    buf[18] := Digit(ms / 100);
    buf[19] := Digit(ms / 10 % 10);
    buf[20] := Digit(ms % 10);
  }

  // ----- Against the calendar's usual formula -----

  /** Days since 1970-01-01 with years counted from March, so that the leap day comes last: months of 153 days
      in five, and leap years by the 4, 100 and 400 rule. */
  function FormulaDays(d: Date): int
    requires IsDate(d)
  {
    var y := if d.month > 2 then d.year else d.year - 1;
    var m := if d.month > 2 then d.month - 3 else d.month + 9;
    365 * y + y / 4 - y / 100 + y / 400 + (153 * m + 2) / 5 + d.day - 1 - 719468
  }

  /** The table of months and the formula agree on every date. */
  lemma DaysByFormula(d: Date)
    requires IsDate(d)
    ensures DayNumber(d) == FormulaDays(d)
  {
    Months(d.year, d.month);
    if d.month > 2 {
      YearStep(d.year);
    }
  }

  lemma Months(year: nat, month: nat)
    requires 1 <= month <= 12
    ensures MonthStart(year, month) ==
            if month > 2 then (153 * (month - 3) + 2) / 5 + 59 + (if Leap(year) then 1 else 0)
            else (153 * (month + 9) + 2) / 5 - 306
  {
    assert MonthStart(year, 1) == 0;
    assert MonthStart(year, 2) == 31;
    if month > 2 {
      LaterMonths(year, month);
    }
  }

  lemma {:induction false} LaterMonths(year: nat, month: nat)
    requires 3 <= month <= 12
    ensures MonthStart(year, month) == (153 * (month - 3) + 2) / 5 + 59 + if Leap(year) then 1 else 0
  {
    if month == 3 {
      assert MonthStart(year, 2) == 31;
    } else {
      LaterMonths(year, month - 1);
    }
  }

  const EPOCH := Stamp(Date(1970, 1, 1), 0, 0, 0, 0)

  /** The epoch prints as the placeholder that frames are rendered with. */
  lemma EpochText(t: Stamp)
    requires IsStamp(t) && Millis(t) == 0
    ensures Text(t) == "19700101-00:00:00.000"
  {
    hide LowDigits, Millis;
    EpochMillis();
    StampOrder(t, EPOCH);
    StampOrder(EPOCH, t);
    EpochDigits();
    EpochLetters();
  }

  lemma EpochMillis()
    ensures IsStamp(EPOCH) && Millis(EPOCH) == 0
  {
  }

  lemma EpochDigits()
    ensures LowDigits(1970, 4) == "1970" && LowDigits(1, 2) == "01"
    ensures LowDigits(0, 2) == "00" && LowDigits(0, 3) == "000"
  {
    hide LowDigits;
    LowFour(1970);
    LowTwo(1);
    LowTwo(0);
    LowThree(0);
  }

  lemma EpochLetters()
    ensures "1970" + ("01" + "01") + ("-" + ("00" + (":" + ("00" + (":" + ("00" + ("." + "000"))))))) ==
            "19700101-00:00:00.000"
  {
    assert "1970" + ("01" + "01") == "19700101";
    assert "00" + (":" + ("00" + (":" + ("00" + ("." + "000"))))) == "00:00:00.000";
  }
}
