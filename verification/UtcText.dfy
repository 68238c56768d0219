/** The canonical text of a UTC instant, which SQL statements compare and sort as text:
    a fixed-width RFC 3339 timestamp with microseconds. */
module UtcText {
  import opened Wrappers
  import opened Models
  import opened RuntimeStates
  import opened Tables

  /** The calendar fields of a date and time. */
  datatype Civil = Civil(
    year: nat, month: nat, day: nat, hour: nat, minute: nat, second: nat, microsecond: nat)

  /** A date and time with its UTC offset in microseconds, if it is aware of one. */
  datatype DateTime = DateTime(civil: Civil, offset: Option<int>)

  // ----- the calendar -----

  predicate IsLeap(year: nat)
  {
    year % 4 == 0 && (year % 100 != 0 || year % 400 == 0)
  }

  function DaysInMonth(year: nat, month: nat): (days: nat)
    requires 1 <= month <= 12
  {
    if month == 2 then (if IsLeap(year) then 29 else 28)
    else if month == 4 || month == 6 || month == 9 || month == 11 then 30
    else 31
  }

  function DaysBeforeMonth(year: nat, month: nat): nat
    requires 1 <= month <= 13
  {
    if month == 1 then 0 else DaysBeforeMonth(year, month - 1) + DaysInMonth(year, month - 1)
  }

  function DaysBeforeYear(year: nat): nat
    requires year >= 1
  {
    var y := year - 1;
    y * 365 + y / 4 - y / 100 + y / 400
  }

  const MAX_YEAR: nat := 9999
  const DAY: Time := 86_400 * SECOND

  predicate Valid(c: Civil)
  {
    && 1 <= c.year <= MAX_YEAR && 1 <= c.month <= 12 && 1 <= c.day <= DaysInMonth(c.year, c.month)
    && c.hour < 24 && c.minute < 60 && c.second < 60 && c.microsecond < 1_000_000
  }

  /** Days since the first of January of year 1. */
  function DayNumber(c: Civil): nat
    requires Valid(c)
  {
    DaysBeforeYear(c.year) + DaysBeforeMonth(c.year, c.month) + c.day - 1
  }

  function TimeOfDay(c: Civil): nat
  {
    ((c.hour * 60 + c.minute) * 60 + c.second) * 1_000_000 + c.microsecond
  }

  /** The instant, counted in microseconds from the start of year 1. */
  function InstantOf(c: Civil): Time
    requires Valid(c)
  {
    DayNumber(c) * DAY + TimeOfDay(c)
  }

  lemma TimeOfDayBound(c: Civil)
    requires Valid(c)
    ensures TimeOfDay(c) < DAY
  {
  }

  lemma {:induction false} MonthsGrow(year: nat, m: nat, n: nat)
    requires 1 <= m < n <= 13
    ensures DaysBeforeMonth(year, m) + DaysInMonth(year, m) <= DaysBeforeMonth(year, n)
    decreases n
  {
    if m < n - 1 {
      MonthsGrow(year, m, n - 1);
    }
  }

  lemma YearLength(year: nat)
    requires year >= 1
    ensures DaysBeforeYear(year + 1) == DaysBeforeYear(year) + DaysBeforeMonth(year, 13)
  {
    var y := year - 1;
    MonthsOfYear(year);
    LeapStep(y);
    CenturiesAreLeap(year);
    assert DaysBeforeYear(year + 1) == (y + 1) * 365 + (y + 1) / 4 - (y + 1) / 100 + (y + 1) / 400;
  }

  lemma CenturiesAreLeap(year: nat)
    ensures year % 100 == 0 ==> year % 4 == 0
    ensures year % 400 == 0 ==> year % 100 == 0
  {
    if year % 100 == 0 {
      assert year % 4 == 4 * (25 * (year / 100) - year / 4);
    }
    if year % 400 == 0 {
      assert year % 100 == 100 * (4 * (year / 400) - year / 100);
    }
  }

  lemma MonthsOfYear(year: nat)
    ensures DaysBeforeMonth(year, 13) == (if IsLeap(year) then 366 else 365)
  {
    assert DaysBeforeMonth(year, 2) == 31;
    assert DaysBeforeMonth(year, 3) == 31 + DaysInMonth(year, 2);
    assert DaysBeforeMonth(year, 4) == DaysBeforeMonth(year, 3) + 31;
    assert DaysBeforeMonth(year, 5) == DaysBeforeMonth(year, 4) + 30;
    assert DaysBeforeMonth(year, 6) == DaysBeforeMonth(year, 5) + 31;
    assert DaysBeforeMonth(year, 7) == DaysBeforeMonth(year, 6) + 30;
    assert DaysBeforeMonth(year, 8) == DaysBeforeMonth(year, 7) + 31;
    assert DaysBeforeMonth(year, 9) == DaysBeforeMonth(year, 8) + 31;
    assert DaysBeforeMonth(year, 10) == DaysBeforeMonth(year, 9) + 30;
    assert DaysBeforeMonth(year, 11) == DaysBeforeMonth(year, 10) + 31;
    assert DaysBeforeMonth(year, 12) == DaysBeforeMonth(year, 11) + 30;
  }

  lemma LeapStep(y: nat)
    ensures (y + 1) / 4 == y / 4 + (if (y + 1) % 4 == 0 then 1 else 0)
    ensures (y + 1) / 100 == y / 100 + (if (y + 1) % 100 == 0 then 1 else 0)
    ensures (y + 1) / 400 == y / 400 + (if (y + 1) % 400 == 0 then 1 else 0)
  {
  }

  lemma {:induction false} YearsGrow(m: nat, n: nat)
    requires 1 <= m < n
    ensures DaysBeforeYear(m) + DaysBeforeMonth(m, 13) <= DaysBeforeYear(n)
    decreases n
  {
    YearLength(n - 1);
    if m < n - 1 {
      YearsGrow(m, n - 1);
    }
  }

  lemma DayOfYearBound(c: Civil)
    requires Valid(c)
    ensures DaysBeforeMonth(c.year, c.month) + c.day <= DaysBeforeMonth(c.year, 13)
  {
    MonthsGrow(c.year, c.month, 13);
  }

  // ----- the fields as a list, compared from the most significant one -----

  function Fields(c: Civil): (fields: seq<nat>)
    ensures |fields| == 7
  {
    [c.year, c.month, c.day, c.hour, c.minute, c.second, c.microsecond]
  }

  predicate Earlier(a: seq<nat>, b: seq<nat>)
    requires |a| == |b|
  {
    a != [] && (a[0] < b[0] || (a[0] == b[0] && Earlier(a[1..], b[1..])))
  }

  lemma EarlierFields(a: Civil, b: Civil)
    ensures Earlier(Fields(a), Fields(b)) <==>
            || a.year < b.year
            || (a.year == b.year && (a.month < b.month
            || (a.month == b.month && (a.day < b.day
            || (a.day == b.day && TimeEarlier(a, b))))))
  {
    var (f, g) := (Fields(a), Fields(b));
    assert f[1..][0] == a.month && g[1..][0] == b.month && f[1..][1..][0] == a.day && g[1..][1..][0] == b.day;
    assert f[1..][1..][1..] == f[3..] && g[1..][1..][1..] == g[3..];
    assert Earlier(f, g) <==> a.year < b.year || (a.year == b.year && Earlier(f[1..], g[1..]));
    assert Earlier(f[1..], g[1..]) <==> a.month < b.month || (a.month == b.month && Earlier(f[1..][1..], g[1..][1..]));
    assert Earlier(f[1..][1..], g[1..][1..]) <==> a.day < b.day || (a.day == b.day && Earlier(f[3..], g[3..]));
  }

  predicate TimeEarlier(a: Civil, b: Civil)
  {
    Earlier(Fields(a)[3..], Fields(b)[3..])
  }

  lemma TimeEarlierMeaning(a: Civil, b: Civil)
    requires Valid(a) && Valid(b)
    ensures TimeEarlier(a, b) <==> TimeOfDay(a) < TimeOfDay(b)
  {
    var (f, g) := (Fields(a)[3..], Fields(b)[3..]);
    var (f1, g1) := (f[1..], g[1..]);
    var (f2, g2) := (f1[1..], g1[1..]);
    var (f3, g3) := (f2[1..], g2[1..]);
    assert f[0] == a.hour && f1[0] == a.minute && f2[0] == a.second && f3 == [a.microsecond];
    assert g[0] == b.hour && g1[0] == b.minute && g2[0] == b.second && g3 == [b.microsecond];
    assert f3[1..] == [] && g3[1..] == [];
    assert Earlier(f3, g3) <==> a.microsecond < b.microsecond;
    assert Earlier(f2, g2) <==> a.second < b.second || (a.second == b.second && Earlier(f3, g3));
    assert Earlier(f1, g1) <==> a.minute < b.minute || (a.minute == b.minute && Earlier(f2, g2));
    assert Earlier(f, g) <==> a.hour < b.hour || (a.hour == b.hour && Earlier(f1, g1));
  }

  lemma FieldOrderIsTimeOrder(a: Civil, b: Civil)
    requires Valid(a) && Valid(b) && Earlier(Fields(a), Fields(b))
    ensures InstantOf(a) < InstantOf(b)
  {
    EarlierFields(a, b);
    TimeOfDayBound(a);
    if SameDay(a, b) {
      TimeEarlierMeaning(a, b);
    } else {
      EarlierDay(a, b);
      assert (DayNumber(a) + 1) * DAY <= DayNumber(b) * DAY;
    }
  }

  predicate SameDay(a: Civil, b: Civil)
  {
    a.year == b.year && a.month == b.month && a.day == b.day
  }

  lemma EarlierDay(a: Civil, b: Civil)
    requires Valid(a) && Valid(b)
    requires
      a.year < b.year || (a.year == b.year && (a.month < b.month || (a.month == b.month && a.day < b.day)))
    ensures DayNumber(a) < DayNumber(b)
  {
    DayOfYearBound(a);
    if a.year < b.year {
      YearsGrow(a.year, b.year);
    } else if a.month < b.month {
      MonthsGrow(a.year, a.month, b.month);
    }
  }

  lemma {:induction false} EarlierTotal(a: seq<nat>, b: seq<nat>)
    requires |a| == |b|
    ensures a == b || Earlier(a, b) || Earlier(b, a)
  {
    if a != [] {
      EarlierTotal(a[1..], b[1..]);
      assert a == [a[0]] + a[1..] && b == [b[0]] + b[1..];
    }
  }

  /** The calendar's field order is the order of instants. */
  lemma CalendarOrder(a: Civil, b: Civil)
    requires Valid(a) && Valid(b)
    ensures Earlier(Fields(a), Fields(b)) <==> InstantOf(a) < InstantOf(b)
    ensures InstantOf(a) == InstantOf(b) ==> a == b
  {
    EarlierTotal(Fields(a), Fields(b));
    if Earlier(Fields(a), Fields(b)) {
      FieldOrderIsTimeOrder(a, b);
    }
    if Earlier(Fields(b), Fields(a)) {
      FieldOrderIsTimeOrder(b, a);
    }
    if Fields(a) == Fields(b) {
      assert forall k :: 0 <= k < 7 ==> Fields(a)[k] == Fields(b)[k];
      assert a.year == Fields(a)[0] && b.year == Fields(b)[0] && a.month == Fields(a)[1] && b.month == Fields(b)[1];
      assert a.day == Fields(a)[2] && b.day == Fields(b)[2] && a.hour == Fields(a)[3] && b.hour == Fields(b)[3];
      assert a.minute == Fields(a)[4] && b.minute == Fields(b)[4] && a.second == Fields(a)[5]
          && b.second == Fields(b)[5];
      assert a.microsecond == Fields(a)[6] && b.microsecond == Fields(b)[6];
    }
  }

  // ----- text -----

  /** How SQL compares two texts: by their first difference. */
  predicate Less(a: string, b: string)
  {
    b != [] && (a == [] || a[0] < b[0] || (a[0] == b[0] && Less(a[1..], b[1..])))
  }

  lemma {:induction false} LessConcat(a: string, b: string, x: string, y: string)
    requires |a| == |b|
    ensures Less(a + x, b + y) <==> Less(a, b) || (a == b && Less(x, y))
  {
    if a == [] {
      assert a + x == x && b + y == y;
    } else {
      LessConcat(a[1..], b[1..], x, y);
      assert (a + x)[1..] == a[1..] + x && (b + y)[1..] == b[1..] + y;
      assert a == [a[0]] + a[1..] && b == [b[0]] + b[1..];
    }
  }

  lemma LessFields(x: string, y: string, mark: char, p: string, q: string)
    requires |x| == |y|
    ensures Less(x + [mark] + p, y + [mark] + q) <==> Less(x, y) || (x == y && Less(p, q))
  {
    LessConcat(x, y, [mark] + p, [mark] + q);
    LessConcat([mark], [mark], p, q);
    assert !Less([mark], [mark]);
    assert x + [mark] + p == x + ([mark] + p) && y + [mark] + q == y + ([mark] + q);
  }

  function Power10(width: nat): (p: nat)
    ensures p > 0
  {
    if width == 0 then 1 else 10 * Power10(width - 1)
  }

  function Digit(d: nat): char
    requires d < 10
  {
    '0' + d as char
  }

  /** The last digits of a number, zero-padded to a width. */
  function Digits(n: nat, width: nat): (text: string)
    ensures |text| == width
  {
    if width == 0 then "" else Digits(n / 10, width - 1) + [Digit(n % 10)]
  }

  function Number(text: string): Option<nat>
  {
    if text == "" then Some(0)
    else
      var (front, last) := (text[..|text| - 1], text[|text| - 1]);
      match Number(front)
      case None => None
      case Some(n) => if '0' <= last <= '9' then Some(10 * n + (last - '0') as nat) else None
  }

  lemma {:induction false} NumberDigits(n: nat, width: nat)
    requires n < Power10(width)
    ensures Number(Digits(n, width)) == Some(n)
  {
    if width > 0 {
      NumberDigits(n / 10, width - 1);
      assert Digits(n, width)[..width - 1] == Digits(n / 10, width - 1);
    }
  }

  lemma {:induction false} DigitsNumber(text: string)
    requires Number(text).Some?
    ensures Digits(Number(text).value, |text|) == text && Number(text).value < Power10(|text|)
  {
    if text != "" {
      var (front, last) := (text[..|text| - 1], text[|text| - 1]);
      DigitsNumber(front);
      assert text == front + [last];
      var (n, d) := (Number(front).value, (last - '0') as nat);
      assert (10 * n + d) / 10 == n && (10 * n + d) % 10 == d;
      assert Digit(d) == last;
    }
  }

  lemma {:induction false} DigitsOrder(m: nat, n: nat, width: nat)
    requires m < Power10(width) && n < Power10(width)
    ensures Less(Digits(m, width), Digits(n, width)) <==> m < n
  {
    if width > 0 {
      DigitsOrder(m / 10, n / 10, width - 1);
      NumberDigits(m / 10, width - 1);
      NumberDigits(n / 10, width - 1);
      LessConcat(Digits(m / 10, width - 1), Digits(n / 10, width - 1), [Digit(m % 10)], [Digit(n % 10)]);
      assert Less([Digit(m % 10)], [Digit(n % 10)]) <==> m % 10 < n % 10;
    }
  }

  // ----- the layout YYYY-MM-DDTHH:MM:SS.ffffffZ -----

  const WIDTHS: seq<nat> := [4, 2, 2, 2, 2, 2, 6]
  const MARKS: string := "--T::.Z"

  predicate Fit(fields: seq<nat>, k: nat)
  {
    k <= |fields| == 7 && forall i :: k <= i < 7 ==> fields[i] < Power10(WIDTHS[i])
  }

  /** The k-th field and those after it, each followed by its mark. */
  function Render(fields: seq<nat>, k: nat): string
    requires |fields| == 7 && k <= 7
    decreases 7 - k
  {
    if k == 7 then "" else Digits(fields[k], WIDTHS[k]) + [MARKS[k]] + Render(fields, k + 1)
  }

  function WidthFrom(k: nat): nat
    requires k <= 7
    decreases 7 - k
  {
    if k == 7 then 0 else WIDTHS[k] + 1 + WidthFrom(k + 1)
  }

  lemma {:induction false} RenderWidth(fields: seq<nat>, k: nat)
    requires |fields| == 7 && k <= 7
    ensures |Render(fields, k)| == WidthFrom(k)
    decreases 7 - k
  {
    if k < 7 {
      RenderWidth(fields, k + 1);
    }
  }

  lemma {:induction false} RenderOrder(a: seq<nat>, b: seq<nat>, k: nat)
    requires Fit(a, k) && Fit(b, k)
    ensures Less(Render(a, k), Render(b, k)) <==> Earlier(a[k..], b[k..])
    decreases 7 - k
  {
    if k < 7 {
      RenderOrder(a, b, k + 1);
      var (x, y) := (Digits(a[k], WIDTHS[k]), Digits(b[k], WIDTHS[k]));
      LessFields(x, y, MARKS[k], Render(a, k + 1), Render(b, k + 1));
      DigitsOrder(a[k], b[k], WIDTHS[k]);
      NumberDigits(a[k], WIDTHS[k]);
      NumberDigits(b[k], WIDTHS[k]);
      assert a[k..][1..] == a[k + 1..] && b[k..][1..] == b[k + 1..];
    }
  }

  /** Read the k-th field and those after it back. */
  function Scan(text: string, k: nat): Option<seq<nat>>
    requires k <= 7
    decreases 7 - k
  {
    if k == 7 then (if text == "" then Some([]) else None)
    else if |text| <= WIDTHS[k] || text[WIDTHS[k]] != MARKS[k] then None
    else
      match (Number(text[..WIDTHS[k]]), Scan(text[WIDTHS[k] + 1..], k + 1))
      case (Some(n), Some(rest)) => Some([n] + rest)
      case _ => None
  }

  lemma {:induction false} ScanRender(fields: seq<nat>, k: nat)
    requires Fit(fields, k)
    ensures Scan(Render(fields, k), k) == Some(fields[k..])
    decreases 7 - k
  {
    if k < 7 {
      ScanRender(fields, k + 1);
      ScanRenderStep(fields, k);
    } else {
      assert fields[k..] == [];
    }
  }

  lemma ScanRenderStep(fields: seq<nat>, k: nat)
    requires k < 7 == |fields| && fields[k] < Power10(WIDTHS[k])
    requires Scan(Render(fields, k + 1), k + 1) == Some(fields[k + 1..])
    ensures Scan(Render(fields, k), k) == Some(fields[k..])
  {
    NumberDigits(fields[k], WIDTHS[k]);
    ScanCons(Digits(fields[k], WIDTHS[k]), Render(fields, k + 1), k);
    assert fields[k..] == [fields[k]] + fields[k + 1..];
  }

  lemma ScanCons(digits: string, rest: string, k: nat)
    requires k < 7 && |digits| == WIDTHS[k] && Number(digits).Some? && Scan(rest, k + 1).Some?
    ensures Scan(digits + [MARKS[k]] + rest, k) == Some([Number(digits).value] + Scan(rest, k + 1).value)
  {
    var text := digits + [MARKS[k]] + rest;
    assert text[..WIDTHS[k]] == digits && text[WIDTHS[k]] == MARKS[k] && text[WIDTHS[k] + 1..] == rest;
  }

  lemma {:induction false} RenderScan(text: string, k: nat, fields: seq<nat>)
    requires k <= 7 && |fields| == 7 && Scan(text, k) == Some(fields[k..])
    ensures Render(fields, k) == text && Fit(fields, k)
    decreases 7 - k
  {
    if k < 7 {
      var (front, rest) := (text[..WIDTHS[k]], text[WIDTHS[k] + 1..]);
      assert text == front + [MARKS[k]] + rest;
      ScanStep(text, k, fields);
      RenderScan(rest, k + 1, fields);
      DigitsNumber(front);
      assert Render(fields, k) == front + [MARKS[k]] + rest;
    }
  }

  lemma ScanStep(text: string, k: nat, fields: seq<nat>)
    requires k < 7 && |fields| == 7 && Scan(text, k) == Some(fields[k..])
    ensures |text| > WIDTHS[k] && text[WIDTHS[k]] == MARKS[k]
    ensures Number(text[..WIDTHS[k]]) == Some(fields[k])
    ensures Scan(text[WIDTHS[k] + 1..], k + 1) == Some(fields[k + 1..])
  {
    var (n, tail) := (Number(text[..WIDTHS[k]]), Scan(text[WIDTHS[k] + 1..], k + 1));
    assert fields[k..] == [n.value] + tail.value;
    assert fields[k] == fields[k..][0] && fields[k + 1..] == fields[k..][1..];
  }

  lemma FieldsFit(c: Civil)
    requires Valid(c)
    ensures Fit(Fields(c), 0)
  {
  }

  // ----- the encoding and its inverse -----

  /** The canonical text, or a refusal of anything that is not UTC. */
  function Encode(d: DateTime): Result<string, Detail>
  {
    if d.offset != Some(0) then Failure("datetime must be timezone-aware UTC")
    else Success(Render(Fields(d.civil), 0))
  }

  /** The ISO parser on texts in the canonical layout. */
  function Parse(text: string): Option<DateTime>
  {
    match Scan(text, 0)
    case None => None
    case Some(f) =>
      if |f| != 7 then None
      else
        var c := Civil(f[0], f[1], f[2], f[3], f[4], f[5], f[6]);
        if Valid(c) then Some(DateTime(c, Some(0))) else None
  }

  /** A decimal digit. */
  function Numeral(d: nat): char
    requires d < 10
  {
    "0123456789"[d]
  }

  function TwoNumerals(n: nat): string
  {
    [Numeral(n / 10 % 10), Numeral(n % 10)]
  }

  lemma DigitsTwo(n: nat)
    ensures Digits(n, 2) == TwoNumerals(n)
  {
    assert Digits(n, 2) == Digits(n / 10, 1) + [Digit(n % 10)];
    assert Digits(n / 10, 1) == Digits(n / 10 / 10, 0) + [Digit(n / 10 % 10)];
  }

  lemma DigitsMore(n: nat, width: nat)
    requires width >= 2
    ensures Digits(n, width) == Digits(n / 100, width - 2) + TwoNumerals(n)
  {
    assert Digits(n, width) == Digits(n / 10, width - 1) + [Digit(n % 10)];
    assert Digits(n / 10, width - 1) == Digits(n / 10 / 10, width - 2) + [Digit(n / 10 % 10)];
    assert n / 10 / 10 == n / 100;
  }

  /** The layout of a text: year, month and day with dashes, a T, hour, minute and second with colons, a
      period, six decimals and a Z. */
  lemma TextLayout(c: Civil)
    ensures
      Encode(DateTime(c, Some(0))) == Success(
        TwoNumerals(c.year / 100) + TwoNumerals(c.year) + ['-'] + (TwoNumerals(c.month) + ['-'] +
        (TwoNumerals(c.day) + ['T'] + (TwoNumerals(c.hour) + [':'] + (TwoNumerals(c.minute) + [':'] +
        (TwoNumerals(c.second) + ['.'] + (SixNumerals(c.microsecond) + ['Z'])))))))
  {
    DigitsMore(c.year, 4);
    DigitsTwo(c.year / 100);
    DigitsSix(c.microsecond);
    DigitsTwo(c.month);
    DigitsTwo(c.day);
    DigitsTwo(c.hour);
    DigitsTwo(c.minute);
    DigitsTwo(c.second);
    RenderSeven(c.year, c.month, c.day, c.hour, c.minute, c.second, c.microsecond);
  }

  function SixNumerals(n: nat): string
  {
    TwoNumerals(n / 10000) + TwoNumerals(n / 100) + TwoNumerals(n)
  }

  lemma DigitsSix(n: nat)
    ensures Digits(n, 6) == SixNumerals(n)
  {
    DigitsMore(n, 6);
    DigitsMore(n / 100, 4);
    DigitsTwo(n / 100 / 100);
    assert n / 100 / 100 == n / 10000;
  }

  lemma RenderSeven(y: nat, m: nat, d: nat, h: nat, mi: nat, s: nat, u: nat)
    ensures
      Render([y, m, d, h, mi, s, u], 0) ==
      Digits(y, 4) + ['-'] + (Digits(m, 2) + ['-'] + (Digits(d, 2) + ['T'] +
      (Digits(h, 2) + [':'] + (Digits(mi, 2) + [':'] + (Digits(s, 2) + ['.'] + (Digits(u, 6) + ['Z']))))))
  {
    var f := [y, m, d, h, mi, s, u];
    RenderNext(f, 6);
    assert Digits(u, 6) + ['Z'] + "" == Digits(u, 6) + ['Z'];
    RenderNext(f, 5);
    RenderNext(f, 4);
    RenderNext(f, 3);
    RenderNext(f, 2);
    RenderNext(f, 1);
    RenderNext(f, 0);
  }

  lemma RenderNext(f: seq<nat>, k: nat)
    requires |f| == 7 && k < 7
    ensures
      var width := if k == 0 then 4 else if k == 6 then 6 else 2;
      Render(f, k) == Digits(f[k], width) + ["--T::.Z"[k]] + Render(f, k + 1)
    ensures Render(f, 7) == ""
  {
  }

  /** Only UTC instants have a text; it has 27 characters and ends in Z. */
  lemma TextShape(d: DateTime)
    ensures Encode(d).Success? <==> d.offset == Some(0)
    ensures Encode(d).Success? ==> |Encode(d).value| == 27 && Encode(d).value[26] == 'Z'
  {
    if d.offset == Some(0) {
      var f := Fields(d.civil);
      RenderWidth(f, 0);
      assert WidthFrom(5) == 10 && WidthFrom(3) == 16 && WidthFrom(1) == 22 && WidthFrom(0) == 27;
      RenderEnd(f, 0);
    }
  }

  lemma {:induction false} RenderEnd(fields: seq<nat>, k: nat)
    requires |fields| == 7 && k < 7
    ensures |Render(fields, k)| > 0 && Render(fields, k)[|Render(fields, k)| - 1] == 'Z'
    decreases 7 - k
  {
    if k < 6 {
      RenderEnd(fields, k + 1);
    } else {
      assert Render(fields, 7) == "";
    }
  }

  /** The parser undoes the encoder, and accepts in this layout nothing but what it writes. */
  lemma TextRoundTrip(d: DateTime, text: string)
    requires Valid(d.civil)
    ensures Encode(d) == Success(text) <==> Parse(text) == Some(d)
  {
    var f := Fields(d.civil);
    if d.offset == Some(0) && text == Render(f, 0) {
      FieldsFit(d.civil);
      ScanRender(f, 0);
      assert f[0..] == f;
    }
    if Parse(text) == Some(d) {
      var g := Scan(text, 0).value;
      assert g == f;
      assert f[0..] == f;
      RenderScan(text, 0, f);
    }
  }

  /** Text order is time order, and equal texts are equal instants. */
  lemma TextOrderIsTimeOrder(a: DateTime, b: DateTime)
    requires Valid(a.civil) && Valid(b.civil) && Encode(a).Success? && Encode(b).Success?
    ensures Less(Encode(a).value, Encode(b).value) <==> InstantOf(a.civil) < InstantOf(b.civil)
    ensures Encode(a) == Encode(b) <==> a == b
    ensures InstantOf(a.civil) == InstantOf(b.civil) <==> a == b
  {
    var (f, g) := (Fields(a.civil), Fields(b.civil));
    FieldsFit(a.civil);
    FieldsFit(b.civil);
    RenderOrder(f, g, 0);
    assert f[0..] == f && g[0..] == g;
    CalendarOrder(a.civil, b.civil);
    TextRoundTrip(a, Encode(a).value);
    TextRoundTrip(b, Encode(b).value);
  }

  // ----- instants as numbers -----

  const END_OF_TIME: Time := DaysBeforeYear(MAX_YEAR + 1) * DAY

  predicate Representable(t: Time)
  {
    0 <= t < END_OF_TIME
  }

  function YearOf(day: nat, year: nat): (y: nat)
    requires year >= 1
    ensures 1 <= y <= year
  {
    if year == 1 || DaysBeforeYear(year) <= day then year else YearOf(day, year - 1)
  }

  function MonthOf(year: nat, day: nat, month: nat): (m: nat)
    requires 1 <= month <= 12
    ensures 1 <= m <= month
  {
    if month == 1 || DaysBeforeMonth(year, month) <= day then month else MonthOf(year, day, month - 1)
  }

  lemma {:induction false} YearOfBounds(day: nat, year: nat)
    requires year >= 1 && day < DaysBeforeYear(year + 1)
    ensures DaysBeforeYear(YearOf(day, year)) <= day < DaysBeforeYear(YearOf(day, year) + 1)
  {
    if year > 1 && DaysBeforeYear(year) > day {
      YearOfBounds(day, year - 1);
    }
  }

  lemma {:induction false} MonthOfBounds(year: nat, day: nat, month: nat)
    requires 1 <= month <= 12 && day < DaysBeforeMonth(year, month + 1)
    ensures
      var m := MonthOf(year, day, month);
      DaysBeforeMonth(year, m) <= day < DaysBeforeMonth(year, m) + DaysInMonth(year, m)
  {
    if month > 1 && DaysBeforeMonth(year, month) > day {
      MonthOfBounds(year, day, month - 1);
    }
  }

  function CivilOf(t: Time): Civil
    requires Representable(t)
  {
    var (day, rest) := (t / DAY, t % DAY);
    var year := YearOf(day, MAX_YEAR);
    var dayOfYear := if day >= DaysBeforeYear(year) then day - DaysBeforeYear(year) else 0;
    var month := MonthOf(year, dayOfYear, 12);
    var before := if dayOfYear >= DaysBeforeMonth(year, month) then DaysBeforeMonth(year, month) else 0;
    Civil(year, month, dayOfYear - before + 1,
          rest / (3600 * SECOND), rest / (60 * SECOND) % 60, rest / SECOND % 60, rest % SECOND)
  }

  lemma ClockFields(rest: nat)
    requires rest < DAY
    ensures
      var (h, m, s, u) := (rest / (3600 * SECOND), rest / (60 * SECOND) % 60, rest / SECOND % 60, rest % SECOND);
      h < 24 && m < 60 && s < 60 && u < 1_000_000 && ((h * 60 + m) * 60 + s) * 1_000_000 + u == rest
  {
    var seconds := rest / SECOND;
    assert rest / (60 * SECOND) == seconds / 60;
    assert rest / (3600 * SECOND) == seconds / 60 / 60;
  }

  lemma DateFields(day: nat)
    requires day < DaysBeforeYear(MAX_YEAR + 1)
    ensures
      var year := YearOf(day, MAX_YEAR);
      DaysBeforeYear(year) <= day &&
      var dayOfYear := day - DaysBeforeYear(year);
      var month := MonthOf(year, dayOfYear, 12);
      DaysBeforeMonth(year, month) <= dayOfYear < DaysBeforeMonth(year, month) + DaysInMonth(year, month)
  {
    YearOfBounds(day, MAX_YEAR);
    var year := YearOf(day, MAX_YEAR);
    YearLength(year);
    MonthOfBounds(year, day - DaysBeforeYear(year), 12);
  }

  /** Every representable instant has calendar fields, and they denote it. */
  lemma CivilInstant(t: Time)
    requires Representable(t)
    ensures Valid(CivilOf(t)) && InstantOf(CivilOf(t)) == t
  {
    DayAndRest(t);
    DateFields(t / DAY);
    ClockFields(t % DAY);
    assert Valid(CivilOf(t));
    assert DayNumber(CivilOf(t)) == t / DAY;
    assert TimeOfDay(CivilOf(t)) == t % DAY;
  }

  lemma DayAndRest(t: Time)
    requires Representable(t)
    ensures t == t / DAY * DAY + t % DAY
    ensures 0 <= t / DAY < DaysBeforeYear(MAX_YEAR + 1)
    ensures 0 <= t % DAY < DAY
  {
  }

  /** The text of an instant. */
  function TextOf(t: Time): string
    requires Representable(t)
  {
    Render(Fields(CivilOf(t)), 0)
  }

  /** Reading a stored text back as an instant. */
  function TimeOf(text: string): Option<Time>
  {
    match Parse(text)
    case None => None
    case Some(d) => Some(InstantOf(d.civil))
  }

  lemma InstantText(t: Time, u: Time)
    requires Representable(t) && Representable(u)
    ensures Less(TextOf(t), TextOf(u)) <==> t < u
    ensures TextOf(t) == TextOf(u) <==> t == u
    ensures TimeOf(TextOf(t)) == Some(t)
  {
    CivilInstant(t);
    CivilInstant(u);
    var (a, b) := (DateTime(CivilOf(t), Some(0)), DateTime(CivilOf(u), Some(0)));
    TextOrderIsTimeOrder(a, b);
    TextRoundTrip(a, TextOf(t));
  }

  /** The purge's comparison of stored texts selects exactly the events before the instant. */
  lemma SelectedByText(t: Tables, before: Time, journal: Option<Id>)
    requires Representable(before)
    requires forall id :: id in t.events ==> Representable(t.events[id].occurredAt)
    ensures
      Selected(t, before, journal) ==
      set id | id in t.events && Less(TextOf(t.events[id].occurredAt), TextOf(before))
               && (journal.None? || t.events[id].journalId == journal.value)
  {
    forall id | id in t.events
      ensures Less(TextOf(t.events[id].occurredAt), TextOf(before)) <==> t.events[id].occurredAt < before
    {
      InstantText(t.events[id].occurredAt, before);
    }
  }

  /** The export's range filter on stored texts is the range filter on instants, ends included. */
  lemma RangeByText(start: Option<Time>, end: Option<Time>, at: Time)
    requires Representable(at)
    requires (start.Some? ==> Representable(start.value)) && (end.Some? ==> Representable(end.value))
    ensures
      && (start.None? || !Less(TextOf(at), TextOf(start.value)))
      && (end.None? || !Less(TextOf(end.value), TextOf(at)))
      <==>
      (start.None? || start.value <= at) && (end.None? || at <= end.value)
  {
    if start.Some? {
      InstantText(at, start.value);
    }
    if end.Some? {
      InstantText(end.value, at);
    }
  }

  /** Rows sorted by the text of their instants are sorted by the instants. */
  lemma SortedByText(instants: seq<Time>)
    requires forall k :: 0 <= k < |instants| ==> Representable(instants[k])
    ensures
      (forall i, j :: 0 <= i < j < |instants| ==> !Less(TextOf(instants[j]), TextOf(instants[i]))) <==>
      (forall i, j :: 0 <= i < j < |instants| ==> instants[i] <= instants[j])
  {
    forall i, j | 0 <= i < j < |instants|
      ensures Less(TextOf(instants[j]), TextOf(instants[i])) <==> instants[j] < instants[i]
    {
      InstantText(instants[j], instants[i]);
    }
  }
}
