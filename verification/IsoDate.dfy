/** Microseconds since 1970 as a date and time (isLeapYear, isoDate), in the format of section 5.6 of
RFC 3339, up to the end of the year 9999. */
module IsoDate {

  import opened Arithmetic
  import opened Texts

  // ----- the Gregorian calendar

  predicate IsLeap(year: nat) {
    year % 4 == 0 && (year % 100 != 0 || year % 400 == 0)
  }

  function YearLength(year: nat): nat {
    if IsLeap(year) then 366 else 365
  }

  function MonthLength(year: nat, month: nat): nat {
    if month == 2 then (if IsLeap(year) then 29 else 28)
    else if month == 4 || month == 6 || month == 9 || month == 11 then 30
    else 31
  }

  /** January to December. */
  lemma MonthTable(year: nat)
    ensures seq(12, i requires 0 <= i < 12 => MonthLength(year, i + 1))
            == [31, if IsLeap(year) then 29 else 28, 31, 30, 31, 30, 31, 31, 30, 31, 30, 31]
  {
  }

  const EPOCH: nat := 1970

  /** The days from the start of 1970 to the start of a year. */
  function DaysBeforeYear(year: nat): (d: nat)
    ensures year > EPOCH ==> d >= 365
  {
    if year <= EPOCH then 0 else DaysBeforeYear(year - 1) + YearLength(year - 1)
  }

  /** The days from the start of a year to the start of a month; month 13 is the end of the year. */
  function DaysBeforeMonth(year: nat, month: nat): nat {
    if month <= 1 then 0 else DaysBeforeMonth(year, month - 1) + MonthLength(year, month - 1)
  }

  lemma NextMonth(year: nat, month: nat)
    requires month >= 1
    ensures DaysBeforeMonth(year, month + 1) == DaysBeforeMonth(year, month) + MonthLength(year, month)
  {
  }

  lemma WholeYear(year: nat)
    ensures DaysBeforeMonth(year, 13) == YearLength(year)
  {
    NextMonth(year, 1);
    NextMonth(year, 2);
    NextMonth(year, 3);
    NextMonth(year, 4);
    NextMonth(year, 5);
    NextMonth(year, 6);
    NextMonth(year, 7);
    NextMonth(year, 8);
    NextMonth(year, 9);
    NextMonth(year, 10);
    NextMonth(year, 11);
    NextMonth(year, 12);
    assert DaysBeforeMonth(year, 1) == 0;
  }

  /** The leap years up to and including a year. */
  function Leaps(year: nat): int {
    year / 4 - year / 100 + year / 400
  }

  lemma OneMoreLeap(year: nat)
    requires year > 0
    ensures Leaps(year) == Leaps(year - 1) + if IsLeap(year) then 1 else 0
  {
    assert year / 4 == (year - 1) / 4 + if year % 4 == 0 then 1 else 0;
    assert year / 100 == (year - 1) / 100 + if year % 100 == 0 then 1 else 0;
    assert year / 400 == (year - 1) / 400 + if year % 400 == 0 then 1 else 0;
    Divides(year);
  }

  lemma Divides(year: nat)
    ensures year % 100 == 0 ==> year % 4 == 0
    ensures year % 400 == 0 ==> year % 100 == 0
  {
    if year % 100 == 0 { ModUnique(year, 25 * (year / 100), 4, 0); }
    if year % 400 == 0 { ModUnique(year, 4 * (year / 400), 100, 0); }
  }

  lemma {:induction false} DaysInClosedForm(year: nat)
    requires year >= EPOCH
    ensures DaysBeforeYear(year) == 365 * (year - EPOCH) + Leaps(year - 1) - Leaps(EPOCH - 1)
  {
    if year > EPOCH {
      DaysInClosedForm(year - 1);
      OneMoreLeap(year - 1);
    }
  }

  lemma {:induction false} YearsAdd(y1: nat, y2: nat)
    requires EPOCH <= y1 < y2
    ensures DaysBeforeYear(y1) + YearLength(y1) <= DaysBeforeYear(y2)
  {
    if y2 > y1 + 1 { YearsAdd(y1, y2 - 1); }
  }

  lemma {:induction false} MonthsAdd(year: nat, m1: nat, m2: nat)
    requires 1 <= m1 < m2
    ensures DaysBeforeMonth(year, m1) + MonthLength(year, m1) <= DaysBeforeMonth(year, m2)
  {
    if m2 > m1 + 1 { MonthsAdd(year, m1, m2 - 1); }
  }

  // ----- a date and time

  datatype Stamp = Stamp(year: nat, month: nat, day: nat, hour: nat, minute: nat, second: nat, millis: nat, micros: nat)

  /** What RFC 3339 (section 5.7) asks of the fields, but for leap seconds, which the clock has not. */
  predicate Valid(f: Stamp) {
    && EPOCH <= f.year <= 9999 && 1 <= f.month <= 12 && 1 <= f.day <= MonthLength(f.year, f.month)
    && f.hour < 24 && f.minute < 60 && f.second < 60 && f.millis < 1000 && f.micros < 1000
  }

  function Day(f: Stamp): nat {
    DaysBeforeYear(f.year) + DaysBeforeMonth(f.year, f.month) + if f.day > 0 then f.day - 1 else 0
  }

  /** The microseconds from the start of 1970. */
  function Micros(f: Stamp): nat {
    ((((Day(f) * 24 + f.hour) * 60 + f.minute) * 60 + f.second) * 1000 + f.millis) * 1000 + f.micros
  }

  const DAY: nat := 86_400_000_000

  /** The start of the year 10000. */
  const END: nat := 2_932_897 * DAY

  // ----- printing

  /** The last `width` digits. */
  function Padded(n: nat, width: nat): (s: string)
    ensures |s| == width
  {
    if width == 0 then "" else Padded(n / 10, width - 1) + [Digit(n)]
  }

  /** yyyy-mm-ddThh:mm:ss.uuuuuuZ */
  function Printed(f: Stamp): string {
    Padded(f.year, 4) + "-" + Padded(f.month, 2) + "-" + Padded(f.day, 2) + "T"
    + Padded(f.hour, 2) + ":" + Padded(f.minute, 2) + ":" + Padded(f.second, 2) + "." + Padded(f.millis, 3) + Padded(f.micros, 3) + "Z"
  }

  lemma TwoDigits(n: nat)
    requires n < 100
    ensures (if n < 10 then "0" else "") + Decimal(n) == Padded(n, 2)
  {
  }

  lemma ThreeDigits(n: nat)
    requires n < 1000
    ensures (if n < 10 then "00" else if n < 100 then "0" else "") + Decimal(n) == Padded(n, 3)
  {
    assert Padded(n, 3) == Padded(n / 10, 2) + [Digit(n)];
    assert Padded(n / 10, 2) == Padded(n / 100, 1) + [Digit(n / 10)] by { assert n / 10 / 10 == n / 100; }
    assert Padded(n / 100, 1) == [Digit(n / 100)];
    if n >= 10 { assert Decimal(n) == Decimal(n / 10) + [Digit(n)]; }
    if n >= 100 { assert Decimal(n / 10) == Decimal(n / 100) + [Digit(n / 10)]; }
  }

  lemma FourDigits(n: nat)
    requires 1000 <= n < 10000
    ensures Decimal(n) == Padded(n, 4)
  {
    assert Decimal(n) == Decimal(n / 10) + [Digit(n)];
    ThreeDigits(n / 10);
    assert "" + Decimal(n / 10) == Decimal(n / 10);
  }

  // ----- the methods

  /** isLeapYear */
  method IsLeapYear(year: nat) returns (result: bool)
    ensures result == IsLeap(year)
  {
    Divides(year);
    result := false;
    if year % 400 == 0 { result := true; }
    else if year % 100 == 0 { result := false; }
    else if year % 4 == 0 { result := true; }
  }

  /** The year loop of isoDate: the year a day is in, and which day of that year it is. */
  method FindYear(day: nat) returns (year: nat, rest: nat)
    ensures year >= EPOCH && rest < YearLength(year) && DaysBeforeYear(year) + rest == day
  {
    year := EPOCH;
    var leap := IsLeapYear(year);
    var days := if leap then 366 else 365;
    while days <= day
      invariant year >= EPOCH && leap == IsLeap(year) && days == DaysBeforeYear(year + 1) && DaysBeforeYear(year) <= day
      decreases day + 1 - days
    {
      year := year + 1;
      leap := IsLeapYear(year);
      days := days + if leap then 366 else 365;
    }
    days := days - if leap then 366 else 365;
    rest := day - days;
  }

  /** Its month loop. */
  method FindMonth(year: nat, dayOfYear: nat) returns (month: nat, rest: nat)
    requires dayOfYear < YearLength(year)
    ensures 1 <= month <= 12 && rest < MonthLength(year, month) && DaysBeforeMonth(year, month) + rest == dayOfYear
  {
    var isLeap := IsLeapYear(year);
    WholeYear(year);
    month, rest := 1, dayOfYear;
    while month < 13
      invariant 1 <= month <= 13 && DaysBeforeMonth(year, month) + rest == dayOfYear
    {
      var length: nat;
      if month == 2 { length := if isLeap then 29 else 28; }
      else if month == 4 || month == 6 || month == 9 || month == 11 { length := 30; }
      else { length := 31; }
      if rest >= length { rest := rest - length; } else { return; }
      month := month + 1;
    }
  }

  lemma LateYears(year: nat)
    requires year >= 10000
    ensures DaysBeforeYear(year) >= END / DAY
  {
    DaysInClosedForm(10000);
    if year > 10000 { YearsAdd(10000, year); }
  }

  /** Printing with a zero in front if need be. */
  method PrintTwo(os: string, n: nat) returns (text: string)
    requires n < 100
    ensures text == os + Padded(n, 2)
  {
    text := os;
    if n < 10 { text := text + "0"; }
    text := text + Decimal(n);
    TwoDigits(n);
  }

  method PrintThree(os: string, n: nat) returns (text: string)
    requires n < 1000
    ensures text == os + Padded(n, 3)
  {
    text := os;
    if n < 10 { text := text + "00"; } else if n < 100 { text := text + "0"; }
    text := text + Decimal(n);
    ThreeDigits(n);
  }

  lemma YearFits(year: nat, day: nat)
    requires year >= EPOCH && DaysBeforeYear(year) <= day < END / DAY
    ensures year <= 9999
  {
    if year > 9999 { LateYears(year); }
  }

  lemma Recombines(micros: nat)
    ensures var millis := micros / 1000;
            var seconds := millis / 1000;
            var minutes := seconds / 60;
            var hours := minutes / 60;
            micros == ((((hours / 24 * 24 + hours % 24) * 60 + minutes % 60) * 60 + seconds % 60) * 1000 + millis % 1000) * 1000 + micros % 1000
  {
  }

  lemma DayOf(micros: nat)
    ensures micros / 1000 / 1000 / 60 / 60 / 24 == micros / DAY
  {
  }

  /** The form of RFC 3339 (section 5.6), with six digits for the fraction: which characters are where,
      and what number the digits of each field stand for. */
  predicate Reads(f: Stamp, text: string) {
    && |text| == 27
    && text[4] == '-' && text[7] == '-' && text[10] == 'T' && text[13] == ':' && text[16] == ':' && text[19] == '.' && text[26] == 'Z'
    && Field(text[..4], f.year) && Field(text[5..7], f.month) && Field(text[8..10], f.day)
    && Field(text[11..13], f.hour) && Field(text[14..16], f.minute) && Field(text[17..19], f.second)
    && Field(text[20..23], f.millis) && Field(text[23..26], f.micros)
  }

  predicate Field(digits: string, n: nat) {
    AllDigits(digits) && ValueOf(digits) == n
  }

  lemma {:induction false} PaddedField(n: nat, width: nat)
    requires n < Power(10, width)
    ensures Field(Padded(n, width), n)
  {
    if width > 0 {
      PaddedField(n / 10, width - 1);
      LastDigit(Padded(n / 10, width - 1), n);
    }
  }

  lemma TenPowers()
    ensures Power(10, 2) == 100 && Power(10, 3) == 1000 && Power(10, 4) == 10000
  {
  }

  lemma PrintedReads(f: Stamp)
    requires Valid(f)
    ensures Reads(f, Printed(f))
  {
    TenPowers();
    FieldsFit(f);
    hide Power, Padded, Valid;
    PaddedField(f.year, 4);
    PaddedField(f.month, 2);
    PaddedField(f.day, 2);
    PaddedField(f.hour, 2);
    PaddedField(f.minute, 2);
    PaddedField(f.second, 2);
    PaddedField(f.millis, 3);
    PaddedField(f.micros, 3);
    hide Field;
    var text := Printed(f);
    assert text[..4] == Padded(f.year, 4) && text[5..7] == Padded(f.month, 2) && text[8..10] == Padded(f.day, 2);
    assert text[11..13] == Padded(f.hour, 2) && text[14..16] == Padded(f.minute, 2) && text[17..19] == Padded(f.second, 2);
    assert text[20..23] == Padded(f.millis, 3) && text[23..26] == Padded(f.micros, 3);
  }

  lemma FieldsFit(f: Stamp)
    requires Valid(f)
    ensures f.year < 10000 && f.month < 100 && f.day < 100 && f.hour < 100 && f.minute < 100 && f.second < 100
    ensures f.millis < 1000 && f.micros < 1000
  {
  }

  /** The text is that of a date and time, which is so many microseconds after 1970. */
  predicate Stands(stamp: Stamp, text: string, micros: nat) {
    Valid(stamp) && Micros(stamp) == micros && Reads(stamp, text) && text == Printed(stamp)
  }

  /** isoDate: for every microsecond up to the end of 9999 the fields printed are those of a date and
      time, and they add up to the input. */
  method ToIsoDate(epochInMicroseconds: nat) returns (text: string)
    requires epochInMicroseconds < END
    ensures exists stamp :: Stands(stamp, text, epochInMicroseconds)
  {
    hide Decimal, Padded, DaysBeforeYear, DaysBeforeMonth, YearLength, Reads;
    var epoch := epochInMicroseconds;
    var micros := epoch % 1000;
    epoch := epoch / 1000;
    var millis := epoch % 1000;
    epoch := epoch / 1000;
    var second := epoch % 60;
    epoch := epoch / 60;
    var minute := epoch % 60;
    epoch := epoch / 60;
    var hour := epoch % 24;
    epoch := epoch / 24;
    ghost var days := epoch;
    Recombines(epochInMicroseconds);
    DayOf(epochInMicroseconds);

    var year;
    year, epoch := FindYear(epoch);
    YearFits(year, days);
    var month;
    month, epoch := FindMonth(year, epoch);
    var day := epoch + 1;
    ghost var stamp := Stamp(year, month, day, hour, minute, second, millis, micros);

    FourDigits(year);
    text := Decimal(year) + "-";
    text := PrintTwo(text, month);
    text := PrintTwo(text + "-", day);
    text := PrintTwo(text + "T", hour);
    text := PrintTwo(text + ":", minute);
    text := PrintTwo(text + ":", second);
    text := PrintThree(text + ".", millis);
    text := PrintThree(text, micros);
    text := text + "Z";
    PrintedReads(stamp);
    assert Stands(stamp, text, epochInMicroseconds);
  }

  // ----- comparing printed dates

  lemma LessHead(c: char, d: char, a: string, b: string)
    ensures Less([c] + a, [d] + b) <==> c < d || (c == d && Less(a, b))
  {
  }

  lemma {:induction false} PaddedOrder(n: nat, m: nat, width: nat, a: string, b: string)
    requires n < Power(10, width) && m < Power(10, width)
    ensures Less(Padded(n, width) + a, Padded(m, width) + b) <==> n < m || (n == m && Less(a, b))
  {
    if width == 0 {
      assert "" + a == a && "" + b == b;
    } else {
      PaddedOrder(n / 10, m / 10, width - 1, [Digit(n)] + a, [Digit(m)] + b);
      LessHead(Digit(n), Digit(m), a, b);
      PaddedMore(n, width, a);
      PaddedMore(m, width, b);
    }
  }

  lemma PaddedMore(n: nat, width: nat, a: string)
    requires width > 0
    ensures Padded(n, width) + a == Padded(n / 10, width - 1) + ([Digit(n)] + a)
  {
  }

  /** A field in front of a text that is already known to compare like a number below `unit`. */
  lemma FieldOrder(n: nat, m: nat, width: nat, separator: string, a: string, b: string, unit: nat, x: nat, y: nat)
    requires n < Power(10, width) && m < Power(10, width) && x < unit && y < unit && (Less(a, b) <==> x < y)
    ensures Less(Padded(n, width) + separator + a, Padded(m, width) + separator + b) <==> n * unit + x < m * unit + y
  {
    hide Less, Padded, Power;
    SeparatorOrder(n, m, width, separator, a, b);
    UnitOrder(n, m, unit, x, y);
  }

  lemma {:induction false} UnitGap(n: nat, m: nat, unit: nat)
    requires n < m
    ensures n * unit + unit <= m * unit
    decreases m
  {
    if n < m - 1 { UnitGap(n, m - 1, unit); }
  }

  lemma UnitOrder(n: nat, m: nat, unit: nat, x: nat, y: nat)
    requires x < unit && y < unit
    ensures n * unit + x < m * unit + y <==> n < m || (n == m && x < y)
  {
    if n < m { UnitGap(n, m, unit); }
    if m < n { UnitGap(m, n, unit); }
  }

  lemma SeparatorOrder(n: nat, m: nat, width: nat, separator: string, a: string, b: string)
    requires n < Power(10, width) && m < Power(10, width)
    ensures Less(Padded(n, width) + separator + a, Padded(m, width) + separator + b) <==> n < m || (n == m && Less(a, b))
  {
    PaddedOrder(n, m, width, separator + a, separator + b);
    LessAfter(separator, a, b);
    assert Padded(n, width) + separator + a == Padded(n, width) + (separator + a);
    assert Padded(m, width) + separator + b == Padded(m, width) + (separator + b);
  }

  /** The printed time of day, and the microseconds since midnight. */
  function Fraction(f: Stamp): string {
    Padded(f.millis, 3) + "" + (Padded(f.micros, 3) + "Z" + "")
  }

  function Time(f: Stamp): string {
    Padded(f.hour, 2) + ":" + (Padded(f.minute, 2) + ":" + (Padded(f.second, 2) + "." + Fraction(f)))
  }

  function TimeMicros(f: Stamp): nat {
    f.hour * 3_600_000_000 + (f.minute * 60_000_000 + (f.second * 1_000_000 + (f.millis * 1000 + f.micros)))
  }

  lemma FractionOrder(f: Stamp, g: Stamp)
    requires Valid(f) && Valid(g)
    ensures Less(Fraction(f), Fraction(g)) <==> f.millis * 1000 + f.micros < g.millis * 1000 + g.micros
  {
    FieldOrder(f.micros, g.micros, 3, "Z", "", "", 1, 0, 0);
    FieldOrder(f.millis, g.millis, 3, "", Padded(f.micros, 3) + "Z" + "", Padded(g.micros, 3) + "Z" + "", 1000, f.micros, g.micros);
  }

  lemma TimeOrder(f: Stamp, g: Stamp)
    requires Valid(f) && Valid(g)
    ensures Less(Time(f), Time(g)) <==> TimeMicros(f) < TimeMicros(g)
    ensures TimeMicros(f) < DAY
  {
    hide Less, Padded, Fraction;
    FractionOrder(f, g);
    var x, y := f.millis * 1000 + f.micros, g.millis * 1000 + g.micros;
    FieldOrder(f.second, g.second, 2, ".", Fraction(f), Fraction(g), 1_000_000, x, y);
    var a, b := Padded(f.second, 2) + "." + Fraction(f), Padded(g.second, 2) + "." + Fraction(g);
    var x1, y1 := f.second * 1_000_000 + x, g.second * 1_000_000 + y;
    FieldOrder(f.minute, g.minute, 2, ":", a, b, 60_000_000, x1, y1);
    var x2, y2 := f.minute * 60_000_000 + x1, g.minute * 60_000_000 + y1;
    FieldOrder(f.hour, g.hour, 2, ":", Padded(f.minute, 2) + ":" + a, Padded(g.minute, 2) + ":" + b, 3_600_000_000, x2, y2);
  }

  lemma PrintedIs(f: Stamp)
    ensures Printed(f) == Padded(f.year, 4) + "-" + (Padded(f.month, 2) + "-" + (Padded(f.day, 2) + "T" + Time(f)))
  {
    hide Padded;
  }

  lemma MicrosAre(f: Stamp)
    requires Valid(f)
    ensures Micros(f) == Day(f) * DAY + TimeMicros(f)
  {
  }

  /** Of dates, the later one is the one with the later year, or month, or day. */
  lemma DayOrder(f: Stamp, g: Stamp)
    requires Valid(f) && Valid(g)
    ensures f.year < g.year ==> Day(f) < Day(g)
    ensures f.year == g.year && f.month < g.month ==> Day(f) < Day(g)
    ensures f.year == g.year && f.month == g.month ==> Day(g) - Day(f) == g.day - f.day
  {
    DayInYear(f);
    if f.year < g.year { YearsAdd(f.year, g.year); }
    if f.year == g.year && f.month < g.month { MonthsAdd(f.year, f.month, g.month); }
  }

  lemma DayInYear(f: Stamp)
    requires Valid(f)
    ensures Day(f) < DaysBeforeYear(f.year) + YearLength(f.year)
  {
    WholeYear(f.year);
    MonthsAdd(f.year, f.month, 13);
  }

  /** Section 5.1 of RFC 3339: as strings the printed dates compare as the times they stand for. */
  lemma PrintedOrder(f: Stamp, g: Stamp)
    requires Valid(f) && Valid(g)
    ensures Less(Printed(f), Printed(g)) <==> Micros(f) < Micros(g)
  {
    TimeOrder(f, g);
    TimeOrder(g, f);
    PrintedIs(f);
    PrintedIs(g);
    MicrosAre(f);
    MicrosAre(g);
    DayOrder(f, g);
    DayOrder(g, f);
    hide Less, Padded, Time, TimeMicros, Printed, Micros, Day;
    var a, b := Padded(f.day, 2) + "T" + Time(f), Padded(g.day, 2) + "T" + Time(g);
    SeparatorOrder(f.day, g.day, 2, "T", Time(f), Time(g));
    SeparatorOrder(f.month, g.month, 2, "-", a, b);
    SeparatorOrder(f.year, g.year, 4, "-", Padded(f.month, 2) + "-" + a, Padded(g.month, 2) + "-" + b);
  }

  /** Two printed times compare as the microsecond counts they were made from; in particular no two
      counts print alike. */
  method Compare(x: nat, y: nat) returns (first: string, second: string)
    requires x < END && y < END
    ensures Less(first, second) <==> x < y
    ensures first == second ==> x == y
  {
    first := ToIsoDate(x);
    second := ToIsoDate(y);
    ghost var f :| Stands(f, first, x);
    ghost var g :| Stands(g, second, y);
    PrintedOrder(f, g);
    PrintedOrder(g, f);
  }
}
