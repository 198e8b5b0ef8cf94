/** The schema's timestamps: how they are printed, how they are read back, and
    why comparing the text is comparing the moments. */
module Timestamps {
  import opened Wrappers
  import opened Strings

  // ------------------------------------------------------------- the calendar

  predicate Leap(year: int) {
    year % 4 == 0 && (year % 100 != 0 || year % 400 == 0)
  }

  function DaysInMonth(year: int, month: int): int {
    if month == 2 then (if Leap(year) then 29 else 28)
    else if month == 4 || month == 6 || month == 9 || month == 11 then 30
    else 31
  }

  function DaysBeforeYear(year: int): int {
    (year - 1) * 365 + (year - 1) / 4 - (year - 1) / 100 + (year - 1) / 400
  }

  function DaysBeforeMonth(year: int, month: int): int
    decreases month
  {
    if month <= 1 then 0 else DaysBeforeMonth(year, month - 1) + DaysInMonth(year, month - 1)
  }

  /** A UTC datetime; the fraction is not zero only when a clock was read. */
  datatype DateTime = DateTime(year: int, month: int, day: int,
                               hour: int, minute: int, second: int, micro: int) {
    predicate Valid() {
      && 1 <= year <= 9999
      && 1 <= month <= 12
      && 1 <= day <= DaysInMonth(year, month)
      && 0 <= hour < 24 && 0 <= minute < 60 && 0 <= second < 60
      && 0 <= micro < 1_000_000
    }

    function Ordinal(): int {
      DaysBeforeYear(year) + DaysBeforeMonth(year, month) + day
    }

    /** Microseconds on one line, so that windows can be cut. */
    function Instant(): int {
      (((Ordinal() * 24 + hour) * 60 + minute) * 60 + second) * 1_000_000 + micro
    }

    /** Field by field, most significant first. */
    predicate Before(other: DateTime) {
      year < other.year || (year == other.year && (
      month < other.month || (month == other.month && (
      day < other.day || (day == other.day && (
      hour < other.hour || (hour == other.hour && (
      minute < other.minute || (minute == other.minute && (
      second < other.second || (second == other.second && micro < other.micro)))))))))))
    }

    function WholeSeconds(): DateTime {
      this.(micro := 0)
    }
  }

  /** `timedelta(minutes=n)` */
  function Minutes(n: int): int {
    n * 60 * 1_000_000
  }

  lemma {:induction false} QuotientStep(n: int, k: int)
    requires k == 4 || k == 100 || k == 400
    ensures n / k == (n - 1) / k + if n % k == 0 then 1 else 0
  {
  }

  lemma {:induction false} NestedMultiples(n: int)
    ensures n % 400 == 0 ==> n % 100 == 0
    ensures n % 100 == 0 ==> n % 4 == 0
  {
    if n % 100 == 0 {
      assert n == 4 * (25 * (n / 100));
    }
    if n % 400 == 0 {
      assert n == 100 * (4 * (n / 400));
    }
  }

  lemma {:induction false} YearLength(year: int)
    ensures DaysBeforeYear(year + 1) == DaysBeforeYear(year) + if Leap(year) then 366 else 365
  {
    QuotientStep(year, 4);
    QuotientStep(year, 100);
    QuotientStep(year, 400);
    NestedMultiples(year);
  }

  lemma {:induction false} DaysBeforeYearGrows(a: int, b: int)
    requires 1 <= a < b
    ensures DaysBeforeYear(a) + (if Leap(a) then 366 else 365) <= DaysBeforeYear(b)
    decreases b - a
  {
    YearLength(b - 1);
    if a < b - 1 {
      DaysBeforeYearGrows(a, b - 1);
    }
  }

  lemma {:induction false} DaysBeforeMonthGrows(year: int, a: int, b: int)
    requires 1 <= a < b <= 12
    ensures DaysBeforeMonth(year, a) + DaysInMonth(year, a) <= DaysBeforeMonth(year, b)
    decreases b - a
  {
    if a < b - 1 {
      DaysBeforeMonthGrows(year, a, b - 1);
    }
  }

  lemma {:induction false} DayOfYear(d: DateTime)
    requires d.Valid()
    ensures 1 <= DaysBeforeMonth(d.year, d.month) + d.day <= if Leap(d.year) then 366 else 365
  {
    var y := d.year;
    assert DaysBeforeMonth(y, 1) == 0;
    assert DaysBeforeMonth(y, 2) == 31;
    assert DaysBeforeMonth(y, 4) == DaysBeforeMonth(y, 2) + DaysInMonth(y, 2) + 31;
    assert DaysBeforeMonth(y, 6) == DaysBeforeMonth(y, 4) + 61;
    assert DaysBeforeMonth(y, 8) == DaysBeforeMonth(y, 6) + 61;
    assert DaysBeforeMonth(y, 10) == DaysBeforeMonth(y, 8) + 61;
    assert DaysBeforeMonth(y, 12) == DaysBeforeMonth(y, 10) + 61;
    if d.month < 12 {
      DaysBeforeMonthGrows(y, d.month, 12);
    }
    if 1 < d.month {
      DaysBeforeMonthGrows(y, 1, d.month);
    }
  }

  /** Counting days and seconds orders moments exactly as their fields do. */
  lemma {:induction false} InstantOrder(a: DateTime, b: DateTime)
    requires a.Valid() && b.Valid()
    ensures a.Before(b) <==> a.Instant() < b.Instant()
    ensures a == b <==> a.Instant() == b.Instant()
  {
    if a.Before(b) {
      BeforeIsEarlier(a, b);
    } else if b.Before(a) {
      BeforeIsEarlier(b, a);
    }
  }

  lemma {:induction false} BeforeIsEarlier(a: DateTime, b: DateTime)
    requires a.Valid() && b.Valid() && a.Before(b)
    ensures a.Instant() < b.Instant()
  {
    if a.year < b.year {
      DaysBeforeYearGrows(a.year, b.year);
      DayOfYear(a);
      DayOfYear(b);
      assert a.Ordinal() < b.Ordinal();
    } else if a.month < b.month {
      DaysBeforeMonthGrows(a.year, a.month, b.month);
      assert a.Ordinal() < b.Ordinal();
    }
  }

  /** The calendar day after a moment's, at the same time of day. */
  function DayAfter(d: DateTime): DateTime {
    var long := d.month == 1 || d.month == 3 || d.month == 5 || d.month == 7 || d.month == 8 || d.month == 10
                || d.month == 12;
    var leap := if d.year % 100 == 0 then d.year % 400 == 0 else d.year % 4 == 0;
    var length := if d.month == 2 then (if leap then 29 else 28) else if long then 31 else 30;
    if d.day < length then d.(day := d.day + 1)
    else if d.month < 12 then d.(month := d.month + 1, day := 1)
    else d.(year := d.year + 1, month := 1, day := 1)
  }

  /** A day is 86 400 seconds, whichever month or year ends with it; within a day an
      hour is 3600 and a minute 60. */
  lemma {:induction false} DaysAndSeconds(d: DateTime, e: DateTime)
    requires d.Valid() && d.year < 9999
    ensures DayAfter(d).Valid() && DayAfter(d).Instant() - d.Instant() == 86_400_000_000
    ensures e.year == d.year && e.month == d.month && e.day == d.day ==>
      e.Instant() - d.Instant()
      == 3_600_000_000 * (e.hour - d.hour) + 60_000_000 * (e.minute - d.minute) + 1_000_000 * (e.second - d.second)
         + (e.micro - d.micro)
  {
    NextDayCounts(d);
    if e.year == d.year && e.month == d.month && e.day == d.day {
      assert e.Ordinal() == d.Ordinal();
    }
  }

  lemma {:induction false} NextDayCounts(d: DateTime)
    requires d.Valid()
    ensures DayAfter(d).Ordinal() == d.Ordinal() + 1
    ensures d.year < 9999 ==> DayAfter(d).Valid()
  {
    NestedMultiples(d.year);
    if d.month == 12 && d.day == 31 {
      YearLength(d.year);
      YearDays(d.year);
    }
  }

  lemma {:induction false} YearDays(year: int)
    ensures DaysBeforeMonth(year, 12) == if Leap(year) then 335 else 334
    ensures DaysBeforeMonth(year, 1) == 0
  {
    assert DaysBeforeMonth(year, 2) == 31;
    assert DaysBeforeMonth(year, 4) == DaysBeforeMonth(year, 2) + DaysInMonth(year, 2) + 31;
    assert DaysBeforeMonth(year, 6) == DaysBeforeMonth(year, 4) + 61;
    assert DaysBeforeMonth(year, 8) == DaysBeforeMonth(year, 6) + 61;
    assert DaysBeforeMonth(year, 10) == DaysBeforeMonth(year, 8) + 61;
    assert DaysBeforeMonth(year, 12) == DaysBeforeMonth(year, 10) + 61;
  }

  // ----------------------------------------------------------------- printing

  function DigitChar(n: int): char
    requires 0 <= n < 10
  {
    ('0' as int + n) as char
  }

  /** `n` with leading zeros to `width` digits, as `%m` and its like print it. */
  function Digits(n: int, width: nat): (s: string)
    requires 0 <= n
    ensures |s| == width
  {
    if width == 0 then "" else Digits(n / 10, width - 1) + [DigitChar(n % 10)]
  }

  /** `n` without leading zeros, as `%Y` prints it. */
  function Decimal(n: int): (s: string)
    requires 0 <= n
    ensures s != ""
    decreases n
  {
    if n < 10 then [DigitChar(n)] else Decimal(n / 10) + [DigitChar(n % 10)]
  }

  /** The pieces of a `strptime`/`strftime` format; a literal matches in
      either case and prints in its own. */
  datatype Directive = YearField | MonthField | DayField | HourField | MinuteField | SecondField
                     | Literal(own: char, other: char)

  /** `"%Y-%m-%dT%H:%M:%SZ"` */
  const TIMESTAMP_FORMAT: seq<Directive> :=
    [YearField, Literal('-', '-'), MonthField, Literal('-', '-'), DayField, Literal('T', 't'),
     HourField, Literal(':', ':'), MinuteField, Literal(':', ':'), SecondField, Literal('Z', 'z')]

  function Get(f: Directive, d: DateTime): int {
    match f
    case YearField => d.year
    case MonthField => d.month
    case DayField => d.day
    case HourField => d.hour
    case MinuteField => d.minute
    case SecondField => d.second
    case Literal(_, _) => 0
  }

  function Set(f: Directive, d: DateTime, v: int): DateTime {
    match f
    case YearField => d.(year := v)
    case MonthField => d.(month := v)
    case DayField => d.(day := v)
    case HourField => d.(hour := v)
    case MinuteField => d.(minute := v)
    case SecondField => d.(second := v)
    case Literal(_, _) => d
  }

  function PrintOne(f: Directive, d: DateTime): string
    requires d.Valid()
  {
    match f
    case YearField => Decimal(d.year)
    case Literal(own, _) => [own]
    case _ => Digits(Get(f, d), 2)
  }

  /** `strftime` */
  function Print(format: seq<Directive>, d: DateTime): string
    requires d.Valid()
  {
    if format == [] then "" else PrintOne(format[0], d) + Print(format[1..], d)
  }

  /** `format_timestamp` */
  function Format(d: DateTime): string
    requires d.Valid()
  {
    Print(TIMESTAMP_FORMAT, d)
  }

  lemma {:induction false} PrintStep(d: DateTime, i: nat)
    requires d.Valid() && i < |TIMESTAMP_FORMAT|
    ensures Print(TIMESTAMP_FORMAT[i..], d) == PrintOne(TIMESTAMP_FORMAT[i], d) + Print(TIMESTAMP_FORMAT[i + 1..], d)
  {
    assert TIMESTAMP_FORMAT[i..][1..] == TIMESTAMP_FORMAT[i + 1..];
  }

  /** The form every printed timestamp has (section 5.6 of RFC 3339). */
  lemma {:induction false} PrintedForm(d: DateTime)
    requires d.Valid()
    ensures Format(d)
      == Decimal(d.year)
         + ("-" + (Digits(d.month, 2) + ("-" + (Digits(d.day, 2)
         + ("T" + (Digits(d.hour, 2) + (":" + (Digits(d.minute, 2) + (":" + (Digits(d.second, 2) + "Z"))))))))))
  {
    hide Decimal, Digits, Print;
    PrintedTime(d);
    PrintStep(d, 5);
    PrintStep(d, 4);
    PrintStep(d, 3);
    PrintStep(d, 2);
    PrintStep(d, 1);
    PrintStep(d, 0);
    assert TIMESTAMP_FORMAT[0..] == TIMESTAMP_FORMAT;
  }

  lemma {:induction false} PrintedTime(d: DateTime)
    requires d.Valid()
    ensures Print(TIMESTAMP_FORMAT[6..], d)
      == Digits(d.hour, 2) + (":" + (Digits(d.minute, 2) + (":" + (Digits(d.second, 2) + "Z"))))
  {
    hide Digits, Print;
    NothingPrinted(d);
    PrintStep(d, 11);
    PrintStep(d, 10);
    PrintStep(d, 9);
    PrintStep(d, 8);
    PrintStep(d, 7);
    PrintStep(d, 6);
  }

  lemma {:induction false} NothingPrinted(d: DateTime)
    requires d.Valid()
    ensures Print(TIMESTAMP_FORMAT[12..], d) == ""
  {
  }

  // ------------------------------------------------------------------ reading

  predicate IsDigit(c: char) {
    '0' <= c <= '9'
  }

  function DigitValue(c: char): int
    requires IsDigit(c)
  {
    c as int - '0' as int
  }

  /** One or two digits within bounds, two preferred: how `strptime` reads
      `%m`, `%d`, `%H`, `%M` and `%S`. */
  function Number(s: string, lo: int, hi: int): (r: Option<(int, string)>)
    ensures r.Some? ==> lo <= r.value.0 <= hi
  {
    if |s| >= 2 && IsDigit(s[0]) && IsDigit(s[1]) && lo <= 10 * DigitValue(s[0]) + DigitValue(s[1]) <= hi then
      Some((10 * DigitValue(s[0]) + DigitValue(s[1]), s[2..]))
    else if |s| >= 1 && IsDigit(s[0]) && lo <= DigitValue(s[0]) <= hi then
      Some((DigitValue(s[0]), s[1..]))
    else None
  }

  /** `%Y`: exactly four digits. */
  function Year(s: string): Option<(int, string)> {
    if |s| >= 4 && IsDigit(s[0]) && IsDigit(s[1]) && IsDigit(s[2]) && IsDigit(s[3]) then
      Some((1000 * DigitValue(s[0]) + 100 * DigitValue(s[1]) + 10 * DigitValue(s[2]) + DigitValue(s[3]), s[4..]))
    else None
  }

  /** One directive's worth of text; `%d` also takes a blank for its leading zero. */
  function ScanOne(f: Directive, s: string): Option<(int, string)> {
    match f
    case YearField => Year(s)
    case MonthField => Number(s, 1, 12)
    case DayField =>
      if |s| >= 2 && s[0] == ' ' && IsDigit(s[1]) && s[1] != '0' then Some((DigitValue(s[1]), s[2..]))
      else Number(s, 1, 31)
    case HourField => Number(s, 0, 23)
    case MinuteField => Number(s, 0, 59)
    case SecondField => Number(s, 0, 59)
    case Literal(own, other) => if |s| >= 1 && (s[0] == own || s[0] == other) then Some((0, s[1..])) else None
  }

  /** `strptime`: the whole text against the whole format. */
  function Scan(format: seq<Directive>, s: string, read: DateTime): Option<DateTime>
    decreases |format|
  {
    if format == [] then (if s == "" then Some(read) else None)
    else
      var (v, rest) :- ScanOne(format[0], s);
      Scan(format[1..], rest, Set(format[0], read, v))
  }

  /** What `strptime` assumes for a field the format does not name. */
  const EPOCH_DEFAULT := DateTime(1900, 1, 1, 0, 0, 0, 0)

  /** `parse_timestamp`: `strptime`, then the datetime constructor's own check
      of the date. `None` is the ValueError. */
  function Parse(s: string): (r: Option<DateTime>)
    ensures r.Some? ==> r.value.Valid()
  {
    var d :- Scan(TIMESTAMP_FORMAT, s, EPOCH_DEFAULT);
    if d.Valid() then Some(d) else None
  }

  // ------------------------------------------------------------ what is readable

  /** The texts one directive stands for, and the value each gives it. */
  predicate Spells(f: Directive, piece: string, v: int) {
    match f
    case YearField => |piece| == 4 && AllDigits(piece) && Value(piece) == v
    case MonthField => SpellsUpTo(piece, v, 1, 12)
    case DayField => SpellsUpTo(piece, v, 1, 31) || (|piece| == 2 && piece[0] == ' ' && SpellsUpTo(piece[1..], v, 1, 9))
    case HourField => SpellsUpTo(piece, v, 0, 23)
    case MinuteField => SpellsUpTo(piece, v, 0, 59)
    case SecondField => SpellsUpTo(piece, v, 0, 59)
    case Literal(own, other) => v == 0 && (piece == [own] || piece == [other])
  }

  predicate AllDigits(piece: string) {
    forall i :: 0 <= i < |piece| ==> IsDigit(piece[i])
  }

  function Value(piece: string): int
    requires AllDigits(piece)
  {
    if piece == "" then 0 else 10 * Value(piece[..|piece| - 1]) + DigitValue(piece[|piece| - 1])
  }

  /** One digit or two. */
  predicate SpellsUpTo(piece: string, v: int, lo: int, hi: int) {
    1 <= |piece| <= 2 && AllDigits(piece) && Value(piece) == v && lo <= v <= hi
  }

  /** The text can be cut into pieces that spell the fields of `d`, in any way. */
  ghost predicate Reads(format: seq<Directive>, s: string, d: DateTime)
    decreases |format|
  {
    if format == [] then s == ""
    else exists k: nat :: k <= |s| && Spells(format[0], s[..k], Get(format[0], d)) && Reads(format[1..], s[k..], d)
  }

  /** No field is named twice, and behind each stands something other than a digit. */
  predicate Separated(format: seq<Directive>) {
    format == [] || (FirstApart(format) && Separated(format[1..]))
  }

  predicate FirstApart(format: seq<Directive>)
    requires format != []
  {
    if format[0].Literal? then !IsDigit(format[0].own) && !IsDigit(format[0].other)
    else format[0] !in format[1..] && |format| > 1 && format[1].Literal?
  }

  /** `strptime` leaves alone what the format does not name. */
  lemma {:induction false} ScanKeeps(format: seq<Directive>, s: string, read: DateTime, f: Directive)
    requires Scan(format, s, read).Some?
    ensures f !in format ==> Get(f, Scan(format, s, read).value) == Get(f, read)
    ensures Scan(format, s, read).value.micro == read.micro
    decreases |format|
  {
    if format != [] {
      var (v, rest) := ScanOne(format[0], s).value;
      ScanKeeps(format[1..], rest, Set(format[0], read, v), f);
    }
  }

  lemma {:induction false} ValueOfTwo(s: string)
    ensures |s| >= 1 && IsDigit(s[0]) ==> AllDigits(s[..1]) && Value(s[..1]) == DigitValue(s[0])
    ensures |s| >= 2 && IsDigit(s[0]) && IsDigit(s[1]) ==>
      AllDigits(s[..2]) && Value(s[..2]) == 10 * DigitValue(s[0]) + DigitValue(s[1])
  {
    if |s| >= 1 {
      assert s[..1][..0] == "";
    }
    if |s| >= 2 {
      assert s[..2][..1] == s[..1];
    }
  }

  lemma {:induction false} ValueOfFour(s: string)
    requires |s| >= 4 && AllDigits(s[..4])
    ensures Year(s) == Some((Value(s[..4]), s[4..]))
  {
    assert IsDigit(s[..4][0]) && IsDigit(s[..4][1]) && IsDigit(s[..4][2]) && IsDigit(s[..4][3]);
    ValueOfTwo(s);
    assert s[..4][..3] == s[..3] && s[..3][..2] == s[..2];
  }

  lemma {:induction false} NumberSpells(s: string, lo: int, hi: int)
    ensures var r := Number(s, lo, hi);
      r.Some? ==> exists k: nat :: k <= |s| && s[k..] == r.value.1 && SpellsUpTo(s[..k], r.value.0, lo, hi)
  {
    ValueOfTwo(s);
    var r := Number(s, lo, hi);
    if r.Some? {
      if |s| >= 2 && r.value.1 == s[2..] && IsDigit(s[0]) && IsDigit(s[1])
        && r.value.0 == 10 * DigitValue(s[0]) + DigitValue(s[1]) {
        assert SpellsUpTo(s[..2], r.value.0, lo, hi);
      } else {
        assert SpellsUpTo(s[..1], r.value.0, lo, hi) && s[1..] == r.value.1;
      }
    }
  }

  lemma {:induction false} SpelledNumber(s: string, k: nat, v: int, lo: int, hi: int)
    requires k <= |s| && SpellsUpTo(s[..k], v, lo, hi)
    requires k < |s| ==> !IsDigit(s[k])
    ensures Number(s, lo, hi) == Some((v, s[k..]))
  {
    ValueOfTwo(s);
    assert IsDigit(s[..k][0]);
    if k == 2 {
      assert IsDigit(s[..k][1]);
    }
  }

  lemma {:induction false} ScanOneSpells(f: Directive, s: string)
    requires ScanOne(f, s).Some?
    ensures exists k: nat :: k <= |s| && s[k..] == ScanOne(f, s).value.1 && Spells(f, s[..k], ScanOne(f, s).value.0)
  {
    match f
    case YearField =>
      assert AllDigits(s[..4]);
      ValueOfFour(s);
      assert Spells(f, s[..4], ScanOne(f, s).value.0);
    case Literal(own, other) =>
      assert s[..1] == [s[0]];
      assert Spells(f, s[..1], 0);
    case DayField =>
      if |s| >= 2 && s[0] == ' ' && IsDigit(s[1]) && s[1] != '0' {
        ValueOfTwo(s[1..]);
        assert s[..2][1..] == s[1..][..1];
        assert Spells(f, s[..2], ScanOne(f, s).value.0);
      } else {
        NumberSpells(s, 1, 31);
      }
    case MonthField => NumberSpells(s, 1, 12);
    case HourField => NumberSpells(s, 0, 23);
    case MinuteField => NumberSpells(s, 0, 59);
    case SecondField => NumberSpells(s, 0, 59);
  }

  /** Before anything but a digit a field can be read in one way only. */
  lemma {:induction false} SpelledOne(f: Directive, s: string, k: nat, v: int)
    requires k <= |s| && Spells(f, s[..k], v)
    requires !f.Literal? && k < |s| ==> !IsDigit(s[k])
    ensures ScanOne(f, s) == Some((v, s[k..]))
  {
    match f
    case YearField => ValueOfFour(s);
    case Literal(own, other) => assert s[..k][0] == s[0];
    case DayField =>
      if SpellsUpTo(s[..k], v, 1, 31) {
        assert IsDigit(s[..k][0]);
        SpelledNumber(s, k, v, 1, 31);
      } else {
        assert s[..k][0] == s[0];
        ValueOfTwo(s[1..]);
        assert s[..2][1..] == s[1..][..1];
        assert IsDigit(s[..2][1..][0]);
      }
    case MonthField => SpelledNumber(s, k, v, 1, 12);
    case HourField => SpelledNumber(s, k, v, 0, 23);
    case MinuteField => SpelledNumber(s, k, v, 0, 59);
    case SecondField => SpelledNumber(s, k, v, 0, 59);
  }

  lemma {:induction false} ScannedReads(format: seq<Directive>, s: string, read: DateTime)
    requires Separated(format) && Scan(format, s, read).Some?
    ensures Reads(format, s, Scan(format, s, read).value)
    decreases |format|
  {
    hide ScanOne, Spells;
    if format != [] {
      var (v, rest) := ScanOne(format[0], s).value;
      var after := Set(format[0], read, v);
      ScanOneSpells(format[0], s);
      ScannedReads(format[1..], rest, after);
      ScanKeeps(format[1..], rest, after, format[0]);
      LiteralsAreWorthless(format[0], s);
    }
  }

  lemma {:induction false} LiteralsAreWorthless(f: Directive, s: string)
    ensures f.Literal? && ScanOne(f, s).Some? ==> ScanOne(f, s).value.0 == 0
  {
  }

  lemma {:induction false} ReadingStarts(format: seq<Directive>, s: string, d: DateTime)
    requires format != [] && format[0].Literal? && Separated(format) && Reads(format, s, d)
    ensures s != "" && !IsDigit(s[0])
  {
    hide IsDigit;
    var k: nat :| k <= |s| && Spells(format[0], s[..k], Get(format[0], d)) && Reads(format[1..], s[k..], d);
    assert k == |s[..k]| == 1;
    assert s[..k][0] == s[0];
  }

  lemma {:induction false} ReadingScans(format: seq<Directive>, s: string, d: DateTime, read: DateTime)
    requires Separated(format) && Reads(format, s, d)
    ensures Scan(format, s, read) == Some(Overwrite(format, d, read))
    decreases |format|
  {
    hide ScanOne, Spells;
    if format != [] {
      var k: nat :| k <= |s| && Spells(format[0], s[..k], Get(format[0], d)) && Reads(format[1..], s[k..], d);
      if !format[0].Literal? {
        ReadingStarts(format[1..], s[k..], d);
      }
      SpelledOne(format[0], s, k, Get(format[0], d));
      ReadingScans(format[1..], s[k..], d, Set(format[0], read, Get(format[0], d)));
    }
  }

  function Place(f: Directive): int {
    match f
    case YearField => 0
    case MonthField => 2
    case DayField => 4
    case HourField => 6
    case MinuteField => 8
    case SecondField => 10
    case Literal(_, _) => -1
  }

  lemma {:induction false} EachInItsPlace(i: nat)
    requires i < |TIMESTAMP_FORMAT|
    ensures !TIMESTAMP_FORMAT[i].Literal? <==> i % 2 == 0
    ensures i % 2 == 0 ==> Place(TIMESTAMP_FORMAT[i]) == i
    ensures i % 2 == 1 ==> !IsDigit(TIMESTAMP_FORMAT[i].own) && !IsDigit(TIMESTAMP_FORMAT[i].other)
  {
  }

  lemma {:induction false} NamedNoMore(i: nat)
    requires i < |TIMESTAMP_FORMAT| && !TIMESTAMP_FORMAT[i].Literal?
    ensures TIMESTAMP_FORMAT[i] !in TIMESTAMP_FORMAT[i + 1..]
    ensures i + 1 < |TIMESTAMP_FORMAT| && TIMESTAMP_FORMAT[i + 1].Literal?
  {
    hide Place;
    var f := TIMESTAMP_FORMAT;
    forall j: nat | i <= j < |f| {
      EachInItsPlace(j);
    }
    assert Place(f[i]) == i;
    var rest := f[i + 1..];
    forall k | 0 <= k < |rest|
      ensures rest[k] != f[i]
    {
      assert rest[k] == f[i + 1 + k];
    }
  }

  lemma {:induction false} SeparatedFrom(i: nat)
    requires i <= |TIMESTAMP_FORMAT|
    ensures Separated(TIMESTAMP_FORMAT[i..])
    decreases |TIMESTAMP_FORMAT| - i
  {
    hide Place, IsDigit;
    var f := TIMESTAMP_FORMAT;
    if i < |f| {
      SeparatedFrom(i + 1);
      assert f[i..][0] == f[i] && f[i..][1..] == f[i + 1..];
      EachInItsPlace(i);
      if !f[i].Literal? {
        NamedNoMore(i);
        assert f[i..][1] == f[i + 1];
      }
    }
  }

  /** A text is read as `d` exactly when there is a way to cut it into pieces that
      spell the fields of `d`, and the fields are a date. */
  lemma {:induction false} ParseIff(s: string, d: DateTime)
    ensures Parse(s) == Some(d) <==> d.Valid() && d.micro == 0 && Reads(TIMESTAMP_FORMAT, s, d)
  {
    hide Reads, Scan, Separated;
    SeparatedFrom(0);
    assert TIMESTAMP_FORMAT[0..] == TIMESTAMP_FORMAT;
    if Parse(s) == Some(d) {
      ScannedReads(TIMESTAMP_FORMAT, s, EPOCH_DEFAULT);
      ScanKeeps(TIMESTAMP_FORMAT, s, EPOCH_DEFAULT, YearField);
    }
    if d.Valid() && d.micro == 0 && Reads(TIMESTAMP_FORMAT, s, d) {
      ReadingScans(TIMESTAMP_FORMAT, s, d, EPOCH_DEFAULT);
      FormatNamesEveryField(d, EPOCH_DEFAULT);
    }
  }

  // --------------------------------------------------------------- round trip

  lemma {:induction false} TwoDigits(n: int, rest: string)
    requires 0 <= n < 100
    ensures Digits(n, 2) == [DigitChar(n / 10), DigitChar(n % 10)]
    ensures var s := Digits(n, 2) + rest;
      && IsDigit(s[0]) && IsDigit(s[1]) && s[2..] == rest
      && 10 * DigitValue(s[0]) + DigitValue(s[1]) == n
  {
    assert Digits(n / 10, 1) == [DigitChar(n / 10)];
  }

  lemma {:induction false} ScanPrintedField(f: Directive, d: DateTime, rest: string)
    requires d.Valid() && d.year >= 1000
    ensures ScanOne(f, PrintOne(f, d) + rest) == Some((Get(f, d), rest))
  {
    hide Number, Year, Digits, Decimal;
    match f
    case YearField => YearOfDigits(d.year, rest);
    case Literal(own, other) =>
    case MonthField => NumberOfTwo(d.month, 1, 12, rest);
    case DayField => NumberOfTwo(d.day, 1, 31, rest);
    case HourField => NumberOfTwo(d.hour, 0, 23, rest);
    case MinuteField => NumberOfTwo(d.minute, 0, 59, rest);
    case SecondField => NumberOfTwo(d.second, 0, 59, rest);
  }

  lemma {:induction false} NumberOfTwo(n: int, lo: int, hi: int, rest: string)
    requires 0 <= lo <= n <= hi < 100
    ensures Number(Digits(n, 2) + rest, lo, hi) == Some((n, rest))
    ensures (Digits(n, 2) + rest)[0] != ' '
  {
    TwoDigits(n, rest);
  }

  /** `read` with every field the format names taken from `d`. */
  function Overwrite(format: seq<Directive>, d: DateTime, read: DateTime): DateTime {
    if format == [] then read else Overwrite(format[1..], d, Set(format[0], read, Get(format[0], d)))
  }

  lemma {:induction false} ScanUndoesPrint(format: seq<Directive>, d: DateTime, read: DateTime)
    requires d.Valid() && d.year >= 1000
    ensures Scan(format, Print(format, d), read) == Some(Overwrite(format, d, read))
  {
    if format != [] {
      var f, v := format[0], Get(format[0], d);
      ScanPrintedField(f, d, Print(format[1..], d));
      ScanUndoesPrint(format[1..], d, Set(f, read, v));
    }
  }

  lemma {:induction false} OverwriteFields(format: seq<Directive>, d: DateTime, read: DateTime)
    ensures var o := Overwrite(format, d, read);
      && o.year == (if YearField in format then d.year else read.year)
      && o.month == (if MonthField in format then d.month else read.month)
      && o.day == (if DayField in format then d.day else read.day)
      && o.hour == (if HourField in format then d.hour else read.hour)
      && o.minute == (if MinuteField in format then d.minute else read.minute)
      && o.second == (if SecondField in format then d.second else read.second)
      && o.micro == read.micro
  {
    if format != [] {
      assert forall f: Directive :: f in format <==> f == format[0] || f in format[1..];
      OverwriteFields(format[1..], d, Set(format[0], read, Get(format[0], d)));
    }
  }

  lemma {:induction false} FormatNamesEveryField(d: DateTime, read: DateTime)
    requires read.micro == 0
    ensures Overwrite(TIMESTAMP_FORMAT, d, read) == d.WholeSeconds()
  {
    var f := TIMESTAMP_FORMAT;
    assert f[0] in f && f[2] in f && f[4] in f && f[6] in f && f[8] in f && f[10] in f;
    OverwriteFields(f, d, read);
  }

  lemma {:induction false} FourDigits(n: int)
    requires 1000 <= n <= 9999
    ensures Decimal(n) == Digits(n, 4)
      == [DigitChar(n / 1000), DigitChar(n / 100 % 10), DigitChar(n / 10 % 10), DigitChar(n % 10)]
  {
    assert n / 10 / 10 == n / 100 && n / 100 / 10 == n / 1000;
    assert Decimal(n / 1000) == [DigitChar(n / 1000)] == Digits(n / 1000, 1);
    assert Decimal(n / 100) == Decimal(n / 1000) + [DigitChar(n / 100 % 10)];
    assert Decimal(n / 10) == Decimal(n / 100) + [DigitChar(n / 10 % 10)];
    assert Digits(n / 100, 2) == Digits(n / 1000, 1) + [DigitChar(n / 100 % 10)];
    assert Digits(n / 10, 3) == Digits(n / 100, 2) + [DigitChar(n / 10 % 10)];
  }

  /** A number is the sum of its four digits. */
  lemma {:induction false} DigitSum(n: int)
    requires 0 <= n <= 9999
    ensures n == 1000 * (n / 1000) + 100 * (n / 100 % 10) + 10 * (n / 10 % 10) + n % 10
  {
    assert n == 10 * (n / 10) + n % 10;
    assert n / 10 == 10 * (n / 100) + n / 10 % 10;
    assert n / 100 == 10 * (n / 1000) + n / 100 % 10;
  }

  lemma {:induction false} YearOfFour(a: int, b: int, c: int, d: int, rest: string)
    requires 0 <= a < 10 && 0 <= b < 10 && 0 <= c < 10 && 0 <= d < 10
    ensures Year([DigitChar(a), DigitChar(b), DigitChar(c), DigitChar(d)] + rest)
      == Some((1000 * a + 100 * b + 10 * c + d, rest))
  {
    var s := [DigitChar(a), DigitChar(b), DigitChar(c), DigitChar(d)] + rest;
    assert s[4..] == rest;
  }

  lemma {:induction false} YearOfDigits(n: int, rest: string)
    requires 1000 <= n <= 9999
    ensures Year(Decimal(n) + rest) == Some((n, rest))
  {
    hide Year, Decimal, Digits, DigitChar;
    FourDigits(n);
    DigitSum(n);
    YearOfFour(n / 1000, n / 100 % 10, n / 10 % 10, n % 10, rest);
  }

  /** A year before 1000 prints too short to be read back. */
  lemma {:induction false} ShortYear(n: int, rest: string)
    requires 1 <= n < 1000
    ensures Year(Decimal(n) + ("-" + rest)).None?
  {
    var s := Decimal(n) + ("-" + rest);
    if n < 10 {
      assert s[1] == '-';
    } else if n < 100 {
      assert |Decimal(n)| == 2;
      assert s[2] == '-';
    } else {
      assert |Decimal(n / 10)| == 2;
      assert s[3] == '-';
    }
  }

  /** Reading undoes printing, up to the fraction the format drops, exactly for
      the years of four digits. */
  lemma {:induction false} ParseUndoesFormat(d: DateTime)
    requires d.Valid()
    ensures Parse(Format(d)) == Some(d.WholeSeconds()) <==> d.year >= 1000
    ensures Parse(Format(d)).None? <==> d.year < 1000
  {
    var rest := TIMESTAMP_FORMAT[1..];
    if d.year < 1000 {
      assert Print(rest, d) == "-" + Print(rest[1..], d);
      ShortYear(d.year, Print(rest[1..], d));
      assert ScanOne(YearField, Format(d)).None?;
    } else {
      ScanUndoesPrint(TIMESTAMP_FORMAT, d, EPOCH_DEFAULT);
      FormatNamesEveryField(d, EPOCH_DEFAULT);
    }
  }

  // ------------------------------------------------------------------- orders

  /** Numbers of one width compare as their digits do, what follows breaking ties. */
  lemma {:induction false} DigitsOrder(m: int, n: int, width: nat, s: string, t: string)
    requires 0 <= m && 0 <= n && Fits(m, width) && Fits(n, width)
    ensures Leq(Digits(m, width) + s, Digits(n, width) + t) <==> m < n || (m == n && Leq(s, t))
    decreases width
  {
    if width == 0 {
      assert "" + s == s && "" + t == t;
    } else {
      var ms, nt := [DigitChar(m % 10)] + s, [DigitChar(n % 10)] + t;
      assert Digits(m, width) + s == Digits(m / 10, width - 1) + ms;
      assert Digits(n, width) + t == Digits(n / 10, width - 1) + nt;
      DigitsOrder(m / 10, n / 10, width - 1, ms, nt);
      assert ms[1..] == s && nt[1..] == t;
    }
  }

  predicate Fits(n: int, width: nat)
    decreases width
  {
    if width == 0 then n == 0 else Fits(n / 10, width - 1)
  }

  lemma {:induction false} FitsTwo(n: int)
    requires 0 <= n < 100
    ensures Fits(n, 2)
  {
    assert Fits(n / 10 / 10, 0);
    assert Fits(n / 10, 1);
  }

  lemma {:induction false} FitsFour(n: int)
    requires 0 <= n <= 9999
    ensures Fits(n, 4)
  {
    FitsTwo(n / 100);
    assert n / 10 / 10 == n / 100;
    assert Fits(n / 10, 3);
  }

  /** Field by field in the order of the format. */
  predicate FieldsLeq(format: seq<Directive>, a: DateTime, b: DateTime) {
    if format == [] then true
    else Get(format[0], a) < Get(format[0], b)
         || (Get(format[0], a) == Get(format[0], b) && FieldsLeq(format[1..], a, b))
  }

  lemma {:induction false} FieldOrder(f: Directive, a: DateTime, b: DateTime, s: string, t: string)
    requires a.Valid() && b.Valid() && a.year >= 1000 && b.year >= 1000
    ensures Leq(PrintOne(f, a) + s, PrintOne(f, b) + t)
      <==> Get(f, a) < Get(f, b) || (Get(f, a) == Get(f, b) && Leq(s, t))
  {
    match f
    case YearField =>
      FourDigits(a.year);
      FourDigits(b.year);
      FitsFour(a.year);
      FitsFour(b.year);
      DigitsOrder(a.year, b.year, 4, s, t);
    case Literal(own, other) =>
      LeqSamePrefix([own], s, t);
    case _ =>
      FitsTwo(Get(f, a));
      FitsTwo(Get(f, b));
      DigitsOrder(Get(f, a), Get(f, b), 2, s, t);
  }

  lemma {:induction false} PrintOrder(format: seq<Directive>, a: DateTime, b: DateTime)
    requires a.Valid() && b.Valid() && a.year >= 1000 && b.year >= 1000
    ensures Leq(Print(format, a), Print(format, b)) <==> FieldsLeq(format, a, b)
  {
    if format != [] {
      FieldOrder(format[0], a, b, Print(format[1..], a), Print(format[1..], b));
      PrintOrder(format[1..], a, b);
    }
  }

  /** The format names its fields most significant first. */
  lemma {:induction false} FormatIsMostSignificantFirst(a: DateTime, b: DateTime)
    ensures FieldsLeq(TIMESTAMP_FORMAT, a, b) <==> !b.WholeSeconds().Before(a.WholeSeconds())
  {
    var f := TIMESTAMP_FORMAT;
    assert f[11..][1..] == [];
    PairOrder(f, 10, a, b);
    PairOrder(f, 8, a, b);
    PairOrder(f, 6, a, b);
    PairOrder(f, 4, a, b);
    PairOrder(f, 2, a, b);
    PairOrder(f, 0, a, b);
    assert f[0..] == f && FieldsLeq(f[12..], a, b);
  }

  lemma {:induction false} PairOrder(f: seq<Directive>, i: nat, a: DateTime, b: DateTime)
    requires i + 1 < |f| && f[i + 1].Literal?
    ensures FieldsLeq(f[i..], a, b)
      <==> Get(f[i], a) < Get(f[i], b) || (Get(f[i], a) == Get(f[i], b) && FieldsLeq(f[i + 2..], a, b))
  {
    assert f[i..][1..] == f[i + 1..] && f[i + 1..][1..] == f[i + 2..];
  }

  /** Sorting the printed timestamps is sorting the moments (section 5.1 of
      RFC 3339), to the second the format keeps. */
  lemma {:induction false} TextOrderIsTimeOrder(a: DateTime, b: DateTime)
    requires a.Valid() && b.Valid() && a.year >= 1000 && b.year >= 1000
    ensures Leq(Format(a), Format(b)) <==> a.WholeSeconds().Instant() <= b.WholeSeconds().Instant()
  {
    PrintOrder(TIMESTAMP_FORMAT, a, b);
    FormatIsMostSignificantFirst(a, b);
    InstantOrder(b.WholeSeconds(), a.WholeSeconds());
  }

  /** Against every timestamp the services print, `s` sorts as text where its moment
      `p` stands in time. */
  ghost predicate SortsRightly(s: string, p: DateTime) {
    forall d: DateTime :: d.Valid() && d.year >= 1000 && d.micro == 0 ==>
      && (Leq(s, Format(d)) <==> p.Instant() <= d.Instant())
      && (Leq(Format(d), s) <==> d.Instant() <= p.Instant())
  }

  /** A readable timestamp does exactly when it is written as the services would
      print its moment, or its year is one they could not print. */
  lemma {:induction false} SortsRightlyIff(s: string)
    requires Parse(s).Some?
    ensures var p := Parse(s).value;
      SortsRightly(s, p) <==> p.year < 1000 || s == Format(p)
  {
    hide Format, DateTime.Instant, Scan;
    var p := Parse(s).value;
    ScanKeeps(TIMESTAMP_FORMAT, s, EPOCH_DEFAULT, YearField);
    if p.year < 1000 {
      forall d: DateTime | d.Valid() && d.year >= 1000
        ensures Leq(s, Format(d)) && !Leq(Format(d), s) && p.Instant() < d.Instant()
      {
        OldYearSortsFirst(s, d);
        InstantOrder(p, d);
      }
    } else if s == Format(p) {
      forall d: DateTime | d.Valid() && d.year >= 1000 && d.micro == 0
        ensures Leq(s, Format(d)) <==> p.Instant() <= d.Instant()
        ensures Leq(Format(d), s) <==> d.Instant() <= p.Instant()
      {
        TextOrderIsTimeOrder(p, d);
        TextOrderIsTimeOrder(d, p);
      }
    } else if SortsRightly(s, p) {
      LeqAntisymmetric(s, Format(p));
    }
  }

  /** A year before 1000 is read with its leading zero, and sorts before the rest. */
  lemma {:induction false} OldYearSortsFirst(s: string, d: DateTime)
    requires Parse(s).Some? && Parse(s).value.year < 1000 && d.Valid() && d.year >= 1000
    ensures Leq(s, Format(d)) && !Leq(Format(d), s)
  {
    hide Scan;
    var f := TIMESTAMP_FORMAT;
    assert s[0] == '0' by {
      YearReadFirst(s);
    }
    FourDigits(d.year);
    assert Format(d) == Decimal(d.year) + Print(f[1..], d);
    assert Format(d)[0] == DigitChar(d.year / 1000);
  }

  lemma {:induction false} YearReadFirst(s: string)
    requires Parse(s).Some?
    ensures Year(s).Some? && Year(s).value.0 == Parse(s).value.year
  {
    hide Scan, Year, Separated;
    SeparatedFrom(0);
    assert TIMESTAMP_FORMAT[0..] == TIMESTAMP_FORMAT;
    FirstFieldRead(TIMESTAMP_FORMAT, s, EPOCH_DEFAULT);
  }

  lemma {:induction false} FirstFieldRead(format: seq<Directive>, s: string, read: DateTime)
    requires Separated(format) && format != [] && !format[0].Literal? && Scan(format, s, read).Some?
    ensures ScanOne(format[0], s).Some?
    ensures Get(format[0], Scan(format, s, read).value) == ScanOne(format[0], s).value.0
  {
    hide ScanOne;
    var (v, rest) := ScanOne(format[0], s).value;
    ScanKeeps(format[1..], rest, Set(format[0], read, v), format[0]);
  }

  /** A timestamp whose month is written with one digit. */
  function LooseFormat(d: DateTime): string
    requires d.Valid() && d.month < 10
  {
    Decimal(d.year) + ("-" + ([DigitChar(d.month)] + Print(TIMESTAMP_FORMAT[3..], d)))
  }

  /** Off the fixed width the two orders part: `strptime` reads the one-digit
      month, and its text sorts behind October's. */
  lemma {:induction false} LooseTimestampsSortWrong(d: DateTime, autumn: DateTime)
    requires d.Valid() && autumn.Valid() && d.year == autumn.year >= 1000
    requires 2 <= d.month < 10 <= autumn.month
    ensures Parse(LooseFormat(d)) == Some(d.WholeSeconds())
    ensures d.Instant() < autumn.Instant()
    ensures !Leq(LooseFormat(d), Format(autumn))
  {
    LooseParses(d);
    InstantOrder(d, autumn);
    LooseBehind(d.year, [DigitChar(d.month)] + Print(TIMESTAMP_FORMAT[3..], d), autumn);
  }

  lemma {:induction false} LooseBehind(year: int, s: string, autumn: DateTime)
    requires autumn.Valid() && autumn.year == year && autumn.month >= 10
    requires |s| >= 1 && s[0] > '1'
    ensures !Leq(Decimal(year) + ("-" + s), Format(autumn))
  {
    var f := TIMESTAMP_FORMAT;
    var t := Digits(autumn.month, 2) + Print(f[3..], autumn);
    TwoDigits(autumn.month, "");
    assert t[0] == '1';
    assert f[1..][1..] == f[2..] && f[2..][1..] == f[3..];
    assert Print(f[1..], autumn) == "-" + t;
    LeqSamePrefix("-", s, t);
    LeqSamePrefix(Decimal(year), "-" + s, "-" + t);
  }

  lemma {:induction false} LooseParses(d: DateTime)
    requires d.Valid() && d.year >= 1000 && 1 <= d.month < 10
    ensures Parse(LooseFormat(d)) == Some(d.WholeSeconds())
  {
    var f := TIMESTAMP_FORMAT;
    var rest := Print(f[3..], d);
    var month := [DigitChar(d.month)] + rest;
    var first, second := EPOCH_DEFAULT.(year := d.year), EPOCH_DEFAULT.(year := d.year, month := d.month);
    YearOfDigits(d.year, "-" + month);
    assert Scan(f, LooseFormat(d), EPOCH_DEFAULT) == Scan(f[1..], "-" + month, first);
    assert f[1..][1..] == f[2..] && f[2..][1..] == f[3..];
    assert ("-" + month)[1..] == month;
    assert Scan(f[1..], "-" + month, first) == Scan(f[2..], month, first);
    OneDigitMonth(d.month, rest, Print(f[3..][1..], d));
    assert Scan(f[2..], month, first) == Scan(f[3..], rest, second);
    ScanUndoesPrint(f[3..], d, second);
    LateFields(d, second);
  }

  lemma {:induction false} OneDigitMonth(month: int, rest: string, tail: string)
    requires 1 <= month < 10 && rest == "-" + tail
    ensures ScanOne(MonthField, [DigitChar(month)] + rest) == Some((month, rest))
  {
    var s := [DigitChar(month)] + rest;
    assert s[1] == '-' && s[1..] == rest;
  }

  lemma {:induction false} LateFields(d: DateTime, read: DateTime)
    requires read == EPOCH_DEFAULT.(year := d.year, month := d.month)
    ensures Overwrite(TIMESTAMP_FORMAT[3..], d, read) == d.WholeSeconds()
  {
    var f := TIMESTAMP_FORMAT[3..];
    assert f[1] in f && f[3] in f && f[5] in f && f[7] in f;
    OverwriteFields(f, d, read);
  }
}
