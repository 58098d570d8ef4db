/** UTC time helpers (crates/core/src/time.rs): the civil date of a day count and its texts. */
module Calendar {
  import opened Basics

  const HOUR_MS: int := 3_600_000
  const DAY_MS: int := 86_400_000

  datatype Date = Date(year: int, month: int, day: int)

  /** The year of the 400-year era (counted from March) a day of the era falls in. */
  function YearOfEra(doe: nat): int {
    (doe - doe / 1460 + doe / 36524 - doe / 146_096) / 365
  }

  /** Month and day of a day of the March-based year. */
  function MonthDay(doy: int): (int, int) {
    var mp := (5 * doy + 2) / 153;
    (if mp < 10 then mp + 3 else mp - 9, doy - (153 * mp + 2) / 5 + 1)
  }

  /** First day of the `yoe`-th March-based year of an era. */
  function YearStart(yoe: int): int { 365 * yoe + yoe / 4 - yoe / 100 }

  /** The date of an era, a March-based year and a day of it. */
  function FromParts(era: int, yoe: int, doy: int): Date {
    var (m, d) := MonthDay(doy);
    Date(if m <= 2 then yoe + era * 400 + 1 else yoe + era * 400, m, d)
  }

  /** Which 400-year era day `z` (counted from 0000-03-01) falls in. */
  function EraOf(z: int): (era: int)
    ensures 0 <= z - era * 146_097 < 146_097
  {
    TruncDiv(if z >= 0 then z else z - 146_096, 146_097)
  }

  /** Civil date for a day count since 1970-01-01. Past the era, every operand is natural. */
  function CivilFromDays(days: int): Date {
    var z := days + 719_468;
    var era := EraOf(z);
    var doe := z - era * 146_097;
    var yoe := YearOfEra(doe);
    FromParts(era, yoe, doe - YearStart(yoe))
  }

  // ----- the calendar itself, defined without the algorithm -----

  predicate IsLeap(y: int) {
    y % 4 == 0 && (y % 100 != 0 || y % 400 == 0)
  }

  function DaysInMonth(y: int, m: int): int {
    if m == 2 then (if IsLeap(y) then 29 else 28)
    else if m == 4 || m == 6 || m == 9 || m == 11 then 30
    else 31
  }

  predicate ValidDate(c: Date) {
    1 <= c.month <= 12 && 1 <= c.day <= DaysInMonth(c.year, c.month)
  }

  /** The day after. */
  function Next(c: Date): Date {
    if c.day < DaysInMonth(c.year, c.month) then Date(c.year, c.month, c.day + 1)
    else if c.month < 12 then Date(c.year, c.month + 1, 1)
    else Date(c.year + 1, 1, 1)
  }

  // ----- the algorithm walks that calendar -----

  /** Length of that year: its February, at the end, belongs to the next civil year. */
  function YearLength(yoe: int): int { if IsLeap(yoe + 1) then 366 else 365 }

  lemma YearOfEraCorrect(doe: nat)
    requires doe < 146_097
    ensures 0 <= YearOfEra(doe) < 400
    ensures YearStart(YearOfEra(doe)) <= doe < YearStart(YearOfEra(doe)) + YearLength(YearOfEra(doe))
  {
    var a := Min(doe / 36524, 3);
    var r1 := doe - 36524 * a;
    var b := Min(r1 / 1461, 24);
    var r2 := r1 - 1461 * b;
    var c := Min(r2 / 365, 3);
    var r3 := r2 - 365 * c;
    YearFromParts(doe, a, b, c, r3);
    YearLengthByParts(a, b, c);
    YearStartByParts(a, b, c);
  }

  /** Centuries, groups of four years, years and days of an era. */
  lemma YearFromParts(doe: nat, a: int, b: int, c: int, r3: int)
    requires 0 <= a <= 3 && 0 <= b <= 24 && 0 <= c <= 3 && 0 <= r3 <= 365
    requires doe == 36524 * a + 1461 * b + 365 * c + r3
    requires r3 == 365 ==> c == 3 && (b != 24 || a == 3)
    ensures YearOfEra(doe) == 100 * a + 4 * b + c
  {
    assert doe / 1460 == 25 * a + b + (24 * a + b + 365 * c + r3) / 1460;
    assert doe / 36524 - doe / 146_096 == a;
  }

  lemma YearStartByParts(a: int, b: int, c: int)
    requires 0 <= a <= 3 && 0 <= b <= 24 && 0 <= c <= 3
    ensures YearStart(100 * a + 4 * b + c) == 36524 * a + 1461 * b + 365 * c
  {
    var y := 100 * a + 4 * b + c;
    assert y / 4 == 25 * a + b && y / 100 == a;
  }

  lemma YearLengthByParts(a: int, b: int, c: int)
    requires 0 <= a <= 3 && 0 <= b <= 24 && 0 <= c <= 3
    ensures YearLength(100 * a + 4 * b + c) == if c == 3 && (b != 24 || a == 3) then 366 else 365
  {
    var y := 100 * a + 4 * b + c + 1;
    assert y % 4 == (c + 1) % 4;
    if c == 3 {
      assert y % 100 == 4 * (b + 1) % 100;
    }
  }

  /** A day of the era and its March-based year and day determine each other. */
  lemma YearOfEraUnique(doe: nat, yoe: int)
    requires doe < 146_097 && 0 <= yoe < 400
    requires YearStart(yoe) <= doe < YearStart(yoe) + YearLength(yoe)
    ensures YearOfEra(doe) == yoe
  {
    YearOfEraCorrect(doe);
    YearStartsInOrder(yoe, YearOfEra(doe));
    YearStartsInOrder(YearOfEra(doe), yoe);
  }

  lemma YearEnd(yoe: int)
    requires 0 <= yoe < 400
    ensures yoe < 399 ==> YearStart(yoe + 1) == YearStart(yoe) + YearLength(yoe)
    ensures yoe == 399 ==> YearStart(yoe) + YearLength(yoe) == 146_097
  {
  }

  lemma {:induction false} YearStartsInOrder(y: int, w: int)
    requires 0 <= y && w < 400
    ensures y < w ==> YearStart(y) + YearLength(y) <= YearStart(w)
    decreases w - y
  {
    if y < w {
      YearEnd(w - 1);
      if y + 1 < w { YearStartsInOrder(y, w - 1); }
    }
  }

  lemma PartsOf(days: int, era: int, yoe: int, doy: int)
    requires 0 <= yoe < 400 && 0 <= doy < YearLength(yoe)
    requires days + 719_468 == era * 146_097 + YearStart(yoe) + doy
    ensures CivilFromDays(days) == FromParts(era, yoe, doy)
  {
    var doe := YearStart(yoe) + doy;
    YearStartsInOrder(yoe, 399);
    EraUnique(days + 719_468, era, doe);
    YearOfEraUnique(doe, yoe);
    Assemble(days, era, doe, yoe, doy);
  }

  lemma Assemble(days: int, era: int, doe: nat, yoe: int, doy: int)
    requires EraOf(days + 719_468) == era && days + 719_468 - era * 146_097 == doe
    requires YearOfEra(doe) == yoe && doe - YearStart(yoe) == doy
    ensures CivilFromDays(days) == FromParts(era, yoe, doy)
  {
  }

  lemma EraUnique(z: int, era: int, doe: int)
    requires z == era * 146_097 + doe && 0 <= doe < 146_097
    ensures EraOf(z) == era
  {
  }

  lemma PartsExist(days: int) returns (era: int, yoe: int, doy: int)
    ensures 0 <= yoe < 400 && 0 <= doy < YearLength(yoe)
    ensures days + 719_468 == era * 146_097 + YearStart(yoe) + doy
  {
    var z := days + 719_468;
    era := z / 146_097;
    var doe := z - era * 146_097;
    YearOfEraCorrect(doe);
    yoe := YearOfEra(doe);
    doy := doe - YearStart(yoe);
  }

  lemma NextInsideYear(era: int, yoe: int, doy: int)
    requires 0 <= yoe < 400 && 0 <= doy && doy + 1 < YearLength(yoe)
    ensures FromParts(era, yoe, doy + 1) == Next(FromParts(era, yoe, doy))
    ensures ValidDate(FromParts(era, yoe, doy))
  {
    LeapAcrossEras(yoe + 1, era);
  }

  lemma NextAcrossYears(era: int, yoe: int)
    requires 0 <= yoe < 400
    ensures ValidDate(FromParts(era, yoe, YearLength(yoe) - 1))
    ensures Next(FromParts(era, yoe, YearLength(yoe) - 1))
         == Date(yoe + era * 400 + 1, 3, 1)
  {
    LeapAcrossEras(yoe + 1, era);
  }

  lemma FoursAcrossEras(y: int, era: int)
    ensures (y + era * 400) % 4 == y % 4
  {
    var q, r := y / 4, y % 4;
    assert y + era * 400 == 4 * (q + 100 * era) + r;
  }

  lemma CenturiesAcrossEras(y: int, era: int)
    ensures (y + era * 400) % 100 == y % 100
  {
    var q, r := y / 100, y % 100;
    assert y + era * 400 == 100 * (q + 4 * era) + r;
  }

  lemma ErasAcrossEras(y: int, era: int)
    ensures (y + era * 400) % 400 == y % 400
  {
    var q, r := y / 400, y % 400;
    assert y + era * 400 == 400 * (q + era) + r;
  }

  lemma LeapAcrossEras(y: int, era: int)
    ensures IsLeap(y + era * 400) == IsLeap(y)
  {
    FoursAcrossEras(y, era);
    CenturiesAcrossEras(y, era);
    ErasAcrossEras(y, era);
  }

  lemma FirstOfYear(era: int, yoe: int)
    ensures FromParts(era, yoe, 0) == Date(yoe + era * 400, 3, 1)
  {
  }

  lemma SuccessorInsideYear(days: int, era: int, yoe: int, doy: int)
    requires 0 <= yoe < 400 && 0 <= doy && doy + 1 < YearLength(yoe)
    requires days + 719_468 == era * 146_097 + YearStart(yoe) + doy
    ensures CivilFromDays(days + 1) == FromParts(era, yoe, doy + 1)
  {
    PartsOf(days + 1, era, yoe, doy + 1);
  }

  lemma SuccessorAcrossYears(days: int, era: int, yoe: int)
    requires 0 <= yoe < 400
    requires days + 719_468 == era * 146_097 + YearStart(yoe) + YearLength(yoe) - 1
    ensures CivilFromDays(days + 1) == Date(yoe + era * 400 + 1, 3, 1)
  {
    YearEnd(yoe);
    if yoe < 399 {
      FirstOfYear(era, yoe + 1);
      PartsOf(days + 1, era, yoe + 1, 0);
    } else {
      FirstOfYear(era + 1, 0);
      PartsOf(days + 1, era + 1, 0, 0);
    }
  }

  lemma CivilAnchor()
    ensures CivilFromDays(0) == Date(1970, 1, 1)
  {
    PartsOf(0, 4, 369, 306);
  }

  /** Every day count is a date of the calendar, and one more day is the next date. */
  lemma CivilSuccessor(days: int)
    ensures ValidDate(CivilFromDays(days))
    ensures CivilFromDays(days + 1) == Next(CivilFromDays(days))
  {
    var era, yoe, doy := PartsExist(days);
    PartsOf(days, era, yoe, doy);
    if doy + 1 < YearLength(yoe) {
      SuccessorInsideYear(days, era, yoe, doy);
      NextInsideYear(era, yoe, doy);
    } else {
      SuccessorAcrossYears(days, era, yoe);
      NextAcrossYears(era, yoe);
    }
  }

  // ----- day numbers, defined without the algorithm -----

  /** Days from 0001-01-01 to the first of January of year `y`. */
  function DaysBeforeYear(y: int): int {
    365 * (y - 1) + (y - 1) / 4 - (y - 1) / 100 + (y - 1) / 400
  }

  function DaysBeforeMonth(y: int, m: int): int
    requires 1 <= m <= 12
    decreases m
  {
    if m == 1 then 0 else DaysBeforeMonth(y, m - 1) + DaysInMonth(y, m - 1)
  }

  /** Days from 1970-01-01 to `c`. */
  function DayNumber(c: Date): int
    requires 1 <= c.month <= 12
  {
    DaysBeforeYear(c.year) + DaysBeforeMonth(c.year, c.month) + c.day - 1 - 719_162
  }

  lemma YearAdds(y: int)
    ensures DaysBeforeYear(y + 1) == DaysBeforeYear(y) + (if IsLeap(y) then 366 else 365)
  {
    FoursBefore(y);
    CenturiesBefore(y);
    ErasBefore(y);
    if y % 400 == 0 { EraIsCentury(y); }
    if y % 100 == 0 { CenturyIsFour(y); }
  }

  lemma FoursBefore(y: int)
    ensures y / 4 == (y - 1) / 4 + (if y % 4 == 0 then 1 else 0)
  {
    var q, r := y / 4, y % 4;
    assert y - 1 == if r == 0 then 4 * (q - 1) + 3 else 4 * q + (r - 1);
  }

  lemma CenturiesBefore(y: int)
    ensures y / 100 == (y - 1) / 100 + (if y % 100 == 0 then 1 else 0)
  {
    var q, r := y / 100, y % 100;
    assert y - 1 == if r == 0 then 100 * (q - 1) + 99 else 100 * q + (r - 1);
  }

  lemma ErasBefore(y: int)
    ensures y / 400 == (y - 1) / 400 + (if y % 400 == 0 then 1 else 0)
  {
    var q, r := y / 400, y % 400;
    assert y - 1 == if r == 0 then 400 * (q - 1) + 399 else 400 * q + (r - 1);
  }

  lemma EraIsCentury(y: int)
    requires y % 400 == 0
    ensures y % 100 == 0
  {
    var e := 4 * (y / 400);
    assert y == 100 * e;
  }

  lemma CenturyIsFour(y: int)
    requires y % 100 == 0
    ensures y % 4 == 0
  {
    var c := 25 * (y / 100);
    assert y == 4 * c;
  }

  lemma MonthsAdd(y: int)
    ensures DaysBeforeMonth(y, 12) + 31 == if IsLeap(y) then 366 else 365
  {
    var d1 := DaysBeforeMonth(y, 1);
    var d2 := DaysBeforeMonth(y, 2);
    var d3 := DaysBeforeMonth(y, 3);
    var d4 := DaysBeforeMonth(y, 4);
    var d5 := DaysBeforeMonth(y, 5);
    var d6 := DaysBeforeMonth(y, 6);
    var d7 := DaysBeforeMonth(y, 7);
    var d8 := DaysBeforeMonth(y, 8);
    var d9 := DaysBeforeMonth(y, 9);
    var d10 := DaysBeforeMonth(y, 10);
    var d11 := DaysBeforeMonth(y, 11);
  }

  lemma DayNumberOfNext(c: Date)
    requires ValidDate(c)
    ensures ValidDate(Next(c)) && DayNumber(Next(c)) == DayNumber(c) + 1
  {
    if c.month == 12 && c.day == 31 {
      YearAdds(c.year);
      MonthsAdd(c.year);
    }
  }

  /** The date `n` days later in the calendar. */
  function Later(c: Date, n: nat): Date {
    if n == 0 then c else Next(Later(c, n - 1))
  }

  predicate DateLess(a: Date, b: Date) {
    a.year < b.year || (a.year == b.year && (a.month < b.month || (a.month == b.month && a.day < b.day)))
  }

  /** Days counted forward in the calendar: one more each, and each after the one it started from. */
  lemma {:induction false} LaterCounts(c: Date, n: nat)
    requires ValidDate(c)
    ensures ValidDate(Later(c, n)) && DayNumber(Later(c, n)) == DayNumber(c) + n
    ensures n > 0 ==> DateLess(c, Later(c, n))
  {
    if n > 0 {
      LaterCounts(c, n - 1);
      DayNumberOfNext(Later(c, n - 1));
      LaterStays(c, Later(c, n - 1));
    }
  }

  lemma LaterStays(a: Date, c: Date)
    requires ValidDate(c) && (DateLess(a, c) || a == c)
    ensures DateLess(a, Next(c))
  {
  }

  /** `f` walks the calendar a day at a time. */
  ghost predicate Walks(f: int -> Date) {
    && (forall d :: ValidDate(f(d)))
    && (forall d, e | e == d + 1 :: f(e) == Next(f(d)))
  }

  lemma {:induction false} WalksOn(f: int -> Date, days: int, n: nat)
    requires Walks(f)
    ensures f(days + n) == Later(f(days), n)
  {
    if n > 0 {
      WalksOn(f, days, n - 1);
      assert f(days + n) == Next(f(days + (n - 1)));
    }
  }

  /** Whatever walks the calendar from 1970 numbers its days, in order. */
  lemma WalkNumbers(f: int -> Date, days: int)
    requires Walks(f) && f(0) == Date(1970, 1, 1)
    ensures DayNumber(f(days)) == days
  {
    DayNumberOf1970();
    if days >= 0 {
      WalksOn(f, 0, days);
      LaterCounts(f(0), days);
    } else {
      WalksOn(f, days, -days);
      LaterCounts(f(days), -days);
    }
  }

  lemma WalkOrders(f: int -> Date, a: int, b: int)
    requires Walks(f) && a < b
    ensures DateLess(f(a), f(b))
  {
    WalksOn(f, a, b - a);
    LaterCounts(f(a), b - a);
  }

  /** The algorithm does. */
  lemma CivilWalks()
    ensures Walks(CivilFromDays)
  {
    forall d ensures ValidDate(CivilFromDays(d)) { CivilSuccessor(d); }
    forall d, e | e == d + 1 ensures CivilFromDays(e) == Next(CivilFromDays(d)) { CivilSuccessor(d); }
  }

  /** Counting the days of the calendar gives the day count back, for every integer. */
  lemma CivilInverse(days: int)
    ensures ValidDate(CivilFromDays(days)) && DayNumber(CivilFromDays(days)) == days
  {
    CivilWalks();
    CivilAnchor();
    WalkNumbers(CivilFromDays, days);
  }

  lemma DayNumberOf1970()
    ensures DayNumber(Date(1970, 1, 1)) == 0
  {
  }

  lemma CivilMonotone(a: int, b: int)
    requires a < b
    ensures DateLess(CivilFromDays(a), CivilFromDays(b))
  {
    CivilWalks();
    WalkOrders(CivilFromDays, a, b);
  }

  // ----- the texts -----

  /** A digit as its character. */
  function Text(ds: seq<Digit>): (t: string)
    ensures |t| == |ds|
  {
    seq(|ds|, i requires 0 <= i < |ds| => (ds[i] as int + 48) as char)
  }

  /** `n` in decimal, with zeros in front up to width `w`. */
  function Padded(n: nat, w: nat): seq<Digit> {
    var ds := Digits(n);
    if |ds| >= w then ds else Zeros(w - |ds|) + ds
  }

  /** Rust's `{n:0w}`: the sign counts in the width. */
  function Fixed(n: int, w: nat): string {
    if n >= 0 then Text(Padded(n, w)) else "-" + Text(Padded(-n, if w == 0 then 0 else w - 1))
  }

  function DayText(c: Date): string {
    Fixed(c.year, 4) + "-" + Fixed(c.month, 2) + "-" + Fixed(c.day, 2)
  }

  /** `YYYY-MM-DD` in UTC for a timestamp in milliseconds. */
  function DayUtc(ms: int): string {
    DayText(CivilFromDays(ms / DAY_MS))
  }

  /** `HH:MM:SS.mmm` of the milliseconds since midnight. */
  function ClockText(rem: int): string {
    Fixed(rem / HOUR_MS, 2) + ":" + Fixed(rem / 60_000 % 60, 2) + ":"
    + Fixed(rem / 1000 % 60, 2) + "." + Fixed(rem % 1000, 3)
  }

  /** RFC 3339 form with milliseconds in UTC. */
  function Rfc3339Utc(ms: int): string {
    DayUtc(ms) + "T" + ClockText(ms % DAY_MS) + "Z"
  }

  /** Start of the UTC day that contains `ms`. */
  function StartOfDayUtc(ms: int): int {
    ms / DAY_MS * DAY_MS
  }

  // ----- reading them back -----

  predicate IsDigit(c: char) { '0' <= c <= '9' }

  predicate AllDigits(t: string) { forall i | 0 <= i < |t| :: IsDigit(t[i]) }

  function DigitsOf(t: string): (ds: seq<Digit>)
    requires AllDigits(t)
    ensures |ds| == |t|
  {
    seq(|t|, i requires 0 <= i < |t| => t[i] as int - 48)
  }

  /** An independent reader of section 5.6 of RFC 3339, for the form written here. */
  function ParseRfc3339(t: string): Option<int> {
    if |t| != 24 || t[4] != '-' || t[7] != '-' || t[10] != 'T' || t[13] != ':' || t[16] != ':'
       || t[19] != '.' || t[23] != 'Z' then None
    else if !(AllDigits(t[0..4]) && AllDigits(t[5..7]) && AllDigits(t[8..10]) && AllDigits(t[11..13])
              && AllDigits(t[14..16]) && AllDigits(t[17..19]) && AllDigits(t[20..23])) then None
    else Assembled(Number(t[0..4]), Number(t[5..7]), Number(t[8..10]), Number(t[11..13]), Number(t[14..16]),
                   Number(t[17..19]), Number(t[20..23]))
  }

  /** The instant of some fields, when they are in range. */
  function Assembled(y: nat, m: nat, d: nat, h: nat, mi: nat, s: nat, f: nat): Option<int> {
    var c := Date(y, m, d);
    if ValidDate(c) && h < 24 && mi < 60 && s < 60
    then Some(DayNumber(c) * DAY_MS + h * HOUR_MS + mi * 60_000 + s * 1000 + f)
    else None
  }

  function Number(t: string): nat
    requires AllDigits(t)
  {
    Value(DigitsOf(t))
  }

  lemma FixedReads(n: nat, w: nat)
    requires 1 <= w && n < Pow10(w)
    ensures |Fixed(n, w)| == w && AllDigits(Fixed(n, w)) && Number(Fixed(n, w)) == n
  {
    PaddedValue(n, w);
    var ds := Padded(n, w);
    assert DigitsOf(Text(ds)) == ds;
  }

  lemma PaddedValue(n: nat, w: nat)
    requires 1 <= w && n < Pow10(w)
    ensures |Padded(n, w)| == w && Value(Padded(n, w)) == n
  {
    DigitsWidth(n, w);
    ValueOfDigits(n);
    if |Digits(n)| < w {
      ValueOfZeros(w - |Digits(n)|, Digits(n));
    }
  }

  lemma {:induction false} TextOrder(a: seq<Digit>, b: seq<Digit>)
    requires |a| == |b|
    ensures Value(a) < Value(b) ==> LexLess(Text(a), Text(b))
    ensures Value(a) == Value(b) ==> a == b
  {
    if a != [] {
      var k := |a| - 1;
      TextOrder(a[..k], b[..k]);
      assert Text(a) == Text(a[..k]) + Text([a[k]]);
      assert Text(b) == Text(b[..k]) + Text([b[k]]);
      LexConcat(Text(a[..k]), Text([a[k]]), Text(b[..k]), Text([b[k]]));
      assert a == a[..k] + [a[k]] && b == b[..k] + [b[k]];
    }
  }

  lemma FixedIsPadded(n: nat, w: nat)
    requires 1 <= w && n < Pow10(w)
    ensures Fixed(n, w) == Text(Padded(n, w)) && |Padded(n, w)| == w && Value(Padded(n, w)) == n
  {
    FixedReads(n, w);
    assert DigitsOf(Text(Padded(n, w))) == Padded(n, w);
  }

  lemma FixedOrder(a: nat, b: nat, w: nat, x: string, y: string)
    requires 1 <= w && a < Pow10(w) && b < Pow10(w)
    requires a < b || (a == b && LexLess(x, y))
    ensures LexLess(Fixed(a, w) + x, Fixed(b, w) + y)
  {
    FixedIsPadded(a, w);
    FixedIsPadded(b, w);
    TextOrder(Padded(a, w), Padded(b, w));
    LexConcat(Fixed(a, w), x, Fixed(b, w), y);
  }

  lemma Widths()
    ensures Pow10(2) == 100 && Pow10(3) == 1000 && Pow10(4) == 10_000
  {
    assert Pow10(0) == 1 && Pow10(1) == 10;
  }

  /** The years whose four-digit form RFC 3339 allows. */
  predicate FourDigitYear(ms: int) {
    0 <= CivilFromDays(ms / DAY_MS).year <= 9999
  }

  lemma Layout(y: string, m: string, d: string, h: string, i: string, s: string, f: string, t: string)
    requires |y| == 4 && |m| == 2 && |d| == 2 && |h| == 2 && |i| == 2 && |s| == 2 && |f| == 3
    requires t == (y + "-" + m + "-" + d) + "T" + (h + ":" + i + ":" + s + "." + f) + "Z"
    ensures |t| == 24 && t[4] == '-' && t[7] == '-' && t[10] == 'T' && t[13] == ':' && t[16] == ':'
         && t[19] == '.' && t[23] == 'Z'
    ensures t[0..4] == y && t[5..7] == m && t[8..10] == d && t[11..13] == h && t[14..16] == i
         && t[17..19] == s && t[20..23] == f
    ensures t == y + ("-" + (m + ("-" + (d + ("T" + (h + (":" + (i + (":" + (s + ("." + (f + "Z"))))))))))))
  {
  }

  lemma ClockParts(rem: int)
    requires 0 <= rem < DAY_MS
    ensures 0 <= rem / HOUR_MS < 24 && 0 <= rem / 60_000 % 60 < 60 && 0 <= rem / 1000 % 60 < 60
    ensures rem == rem / HOUR_MS * HOUR_MS + rem / 60_000 % 60 * 60_000 + rem / 1000 % 60 * 1000 + rem % 1000
  {
    assert rem / 60_000 == rem / 1000 / 60 && rem / HOUR_MS == rem / 60_000 / 60;
  }

  lemma LayoutRead(y: string, m: string, d: string, h: string, i: string, s: string, f: string, t: string)
    requires |y| == 4 && |m| == 2 && |d| == 2 && |h| == 2 && |i| == 2 && |s| == 2 && |f| == 3
    requires AllDigits(y) && AllDigits(m) && AllDigits(d) && AllDigits(h) && AllDigits(i) && AllDigits(s)
        && AllDigits(f)
    requires t == (y + "-" + m + "-" + d) + "T" + (h + ":" + i + ":" + s + "." + f) + "Z"
    ensures ParseRfc3339(t) == Assembled(Number(y), Number(m), Number(d), Number(h), Number(i), Number(s), Number(f))
  {
    Layout(y, m, d, h, i, s, f, t);
  }

  /** Reading a text laid out from a date and a clock. */
  lemma FieldsRead(c: Date, h: nat, i: nat, s: nat, f: nat, t: string)
    requires ValidDate(c) && 0 <= c.year <= 9999 && h < 24 && i < 60 && s < 60 && f < 1000
    requires t == DayText(c) + "T" + (Fixed(h, 2) + ":" + Fixed(i, 2) + ":" + Fixed(s, 2) + "." + Fixed(f, 3)) + "Z"
    ensures ParseRfc3339(t) == Assembled(c.year, c.month, c.day, h, i, s, f)
    ensures t == Fixed(c.year, 4) + ("-" + (Fixed(c.month, 2) + ("-" + (Fixed(c.day, 2)
              + ("T" + (Fixed(h, 2) + (":" + (Fixed(i, 2) + (":" + (Fixed(s, 2) + ("." + (Fixed(f, 3) + "Z"))))))))))))
  {
    Widths();
    FixedReads(c.year, 4);
    FixedReads(c.month, 2);
    FixedReads(c.day, 2);
    FixedReads(h, 2);
    FixedReads(i, 2);
    FixedReads(s, 2);
    FixedReads(f, 3);
    var y', m', d', h', i', s', f' := Fixed(c.year, 4), Fixed(c.month, 2), Fixed(c.day, 2), Fixed(h, 2),
                                      Fixed(i, 2), Fixed(s, 2), Fixed(f, 3);
    Layout(y', m', d', h', i', s', f', t);
    LayoutRead(y', m', d', h', i', s', f', t);
  }

  lemma TextRead(c: Date, rem: int, t: string)
    requires ValidDate(c) && 0 <= c.year <= 9999 && 0 <= rem < DAY_MS
    requires t == DayText(c) + "T" + ClockText(rem) + "Z"
    ensures ParseRfc3339(t) == Some(DayNumber(c) * DAY_MS + rem)
    ensures t == FieldsFrom(c, rem)
  {
    ClockParts(rem);
    var h, i, s, f := rem / HOUR_MS, rem / 60_000 % 60, rem / 1000 % 60, rem % 1000;
    FieldsRead(c, h, i, s, f, t);
    AssembledIs(c, h, i, s, f, rem);
  }

  lemma AssembledIs(c: Date, h: nat, i: nat, s: nat, f: nat, rem: int)
    requires ValidDate(c) && 0 <= c.year && h < 24 && i < 60 && s < 60
    requires rem == h * HOUR_MS + i * 60_000 + s * 1000 + f
    ensures Assembled(c.year, c.month, c.day, h, i, s, f) == Some(DayNumber(c) * DAY_MS + rem)
  {
  }

  /** Reading the text gives the same millisecond, over all four-digit years. */
  lemma Rfc3339RoundTrip(ms: int)
    requires FourDigitYear(ms)
    ensures ParseRfc3339(Rfc3339Utc(ms)) == Some(ms)
  {
    var c := CivilFromDays(ms / DAY_MS);
    CivilInverse(ms / DAY_MS);
    TextRead(c, ms % DAY_MS, Rfc3339Utc(ms));
  }

  /** The tail of two texts after fields that agree so far: the first that differs decides. */
  lemma After(sep: string, a: nat, b: nat, w: nat, x: string, y: string)
    requires 1 <= w && a < Pow10(w) && b < Pow10(w)
    requires a < b || (a == b && LexLess(x, y))
    ensures LexLess(sep + (Fixed(a, w) + x), sep + (Fixed(b, w) + y))
  {
    FixedOrder(a, b, w, x, y);
    LexConcat(sep, Fixed(a, w) + x, sep, Fixed(b, w) + y);
  }

  /** The clock's fields, compared in order. */
  lemma ClockOrder(p: int, q: int)
    requires 0 <= p < q < DAY_MS
    ensures p / HOUR_MS < q / HOUR_MS
         || (p / HOUR_MS == q / HOUR_MS && (p / 60_000 % 60 < q / 60_000 % 60
         || (p / 60_000 % 60 == q / 60_000 % 60 && (p / 1000 % 60 < q / 1000 % 60
         || (p / 1000 % 60 == q / 1000 % 60 && p % 1000 < q % 1000)))))
  {
    ClockParts(p);
    ClockParts(q);
  }

  function FieldsFrom(c: Date, rem: int): string {
    Fixed(c.year, 4) + ("-" + (Fixed(c.month, 2) + ("-" + (Fixed(c.day, 2) + ClockTail(rem)))))
  }

  function ClockTail(rem: int): string {
    "T" + (Fixed(rem / HOUR_MS, 2) + (":" + (Fixed(rem / 60_000 % 60, 2)
    + (":" + (Fixed(rem / 1000 % 60, 2) + ("." + (Fixed(rem % 1000, 3) + "Z")))))))
  }

  lemma ClockSorts(p: int, q: int)
    requires 0 <= p < q < DAY_MS
    ensures LexLess(ClockTail(p), ClockTail(q))
  {
    ClockOrder(p, q);
    ClockParts(p);
    ClockParts(q);
    Widths();
    var s, t := "." + (Fixed(p % 1000, 3) + "Z"), "." + (Fixed(q % 1000, 3) + "Z");
    if p % 1000 < q % 1000 { After(".", p % 1000, q % 1000, 3, "Z", "Z"); }
    var i, j := ":" + (Fixed(p / 1000 % 60, 2) + s), ":" + (Fixed(q / 1000 % 60, 2) + t);
    if p / 1000 % 60 < q / 1000 % 60 || (p / 1000 % 60 == q / 1000 % 60 && LexLess(s, t)) {
      After(":", p / 1000 % 60, q / 1000 % 60, 2, s, t);
    }
    var k, l := ":" + (Fixed(p / 60_000 % 60, 2) + i), ":" + (Fixed(q / 60_000 % 60, 2) + j);
    if p / 60_000 % 60 < q / 60_000 % 60 || (p / 60_000 % 60 == q / 60_000 % 60 && LexLess(i, j)) {
      After(":", p / 60_000 % 60, q / 60_000 % 60, 2, i, j);
    }
    After("T", p / HOUR_MS, q / HOUR_MS, 2, k, l);
  }

  lemma FieldsSort(c: Date, p: int, e: Date, q: int)
    requires ValidDate(c) && ValidDate(e) && 0 <= c.year <= 9999 && 0 <= e.year <= 9999
    requires 0 <= p < DAY_MS && 0 <= q < DAY_MS
    requires DateLess(c, e) || (c == e && p < q)
    ensures LexLess(FieldsFrom(c, p), FieldsFrom(e, q))
  {
    Widths();
    if p < q { ClockSorts(p, q); }
    var x, y := ClockTail(p), ClockTail(q);
    if c.day < e.day || (c.day == e.day && p < q) { After("-", c.day, e.day, 2, x, y); }
    var v, w := "-" + (Fixed(c.day, 2) + x), "-" + (Fixed(e.day, 2) + y);
    if c.month < e.month || (c.month == e.month && LexLess(v, w)) { After("-", c.month, e.month, 2, v, w); }
    FixedOrder(c.year, e.year, 4, "-" + (Fixed(c.month, 2) + v), "-" + (Fixed(e.month, 2) + w));
  }

  lemma DateThenClock(a: int, b: int)
    requires a < b
    ensures DateLess(CivilFromDays(a / DAY_MS), CivilFromDays(b / DAY_MS))
         || (a / DAY_MS == b / DAY_MS && a % DAY_MS < b % DAY_MS)
  {
    if a / DAY_MS < b / DAY_MS {
      CivilMonotone(a / DAY_MS, b / DAY_MS);
    }
  }

  lemma EarlierSortsFirst(a: int, b: int)
    requires a < b && FourDigitYear(a) && FourDigitYear(b)
    ensures LexLess(Rfc3339Utc(a), Rfc3339Utc(b))
  {
    var c, e := CivilFromDays(a / DAY_MS), CivilFromDays(b / DAY_MS);
    CivilInverse(a / DAY_MS);
    CivilInverse(b / DAY_MS);
    DateThenClock(a, b);
    FieldsSort(c, a % DAY_MS, e, b % DAY_MS);
    TextRead(c, a % DAY_MS, Rfc3339Utc(a));
    TextRead(e, b % DAY_MS, Rfc3339Utc(b));
  }

  /** As text, timestamps sort exactly as in time. */
  lemma Rfc3339SortsAsTime(a: int, b: int)
    requires FourDigitYear(a) && FourDigitYear(b)
    ensures LexLess(Rfc3339Utc(a), Rfc3339Utc(b)) <==> a < b
  {
    if a < b { EarlierSortsFirst(a, b); }
    if b < a { EarlierSortsFirst(b, a); }
    OneOrder(Rfc3339Utc(a), Rfc3339Utc(b), a, b);
  }

  lemma OneOrder(s: string, t: string, a: int, b: int)
    requires (a < b ==> LexLess(s, t)) && (b < a ==> LexLess(t, s)) && (a == b ==> s == t)
    ensures LexLess(s, t) <==> a < b
  {
    if LexLess(s, t) { LexAsymmetric(s, t); }
  }

  /** `StartOfDayUtc` is the first instant with the same UTC day text, in any year. */
  lemma StartOfDayIsFirst(ms: int, other: int)
    ensures DayUtc(StartOfDayUtc(ms)) == DayUtc(ms)
    ensures DayUtc(other) == DayUtc(ms) <==> StartOfDayUtc(ms) <= other < StartOfDayUtc(ms) + DAY_MS
  {
    DayBounds(ms, StartOfDayUtc(ms));
    DayBounds(ms, other);
    if DayUtc(other) == DayUtc(ms) { SameTextSameDay(ms / DAY_MS, other / DAY_MS); }
  }

  lemma DayBounds(ms: int, other: int)
    ensures other / DAY_MS == ms / DAY_MS <==> StartOfDayUtc(ms) <= other < StartOfDayUtc(ms) + DAY_MS
  {
  }

  lemma SameTextSameDay(a: int, b: int)
    requires DayText(CivilFromDays(a)) == DayText(CivilFromDays(b))
    ensures a == b
  {
    CivilInverse(a);
    CivilInverse(b);
    DayTextInjective(CivilFromDays(a), CivilFromDays(b));
  }

  /** A padded number's digits still give the number. */
  lemma PaddedReads(n: nat, w: nat)
    ensures Value(Padded(n, w)) == n
  {
    ValueOfDigits(n);
    if |Digits(n)| < w {
      ValueOfZeros(w - |Digits(n)|, Digits(n));
    }
  }

  /** The sign and the digits of a padded integer tell it from every other one. */
  lemma FixedInjective(a: int, b: int, w: nat)
    requires Fixed(a, w) == Fixed(b, w)
    ensures a == b
  {
    var v := if w == 0 then 0 else w - 1;
    PaddedReads(Abs(a), if a >= 0 then w else v);
    PaddedReads(Abs(b), if b >= 0 then w else v);
    FixedSign(a, w);
    FixedSign(b, w);
    if a >= 0 {
      TextInjective(Padded(a, w), Padded(b, w));
    } else {
      assert Fixed(a, w)[1..] == Text(Padded(-a, v)) && Fixed(b, w)[1..] == Text(Padded(-b, v));
      TextInjective(Padded(-a, v), Padded(-b, v));
    }
  }

  lemma FixedSign(n: int, w: nat)
    ensures Fixed(n, w) != "" && (Fixed(n, w)[0] == '-' <==> n < 0)
  {
    if n >= 0 { assert |Padded(n, w)| >= 1; }
  }

  lemma TextInjective(a: seq<Digit>, b: seq<Digit>)
    requires Text(a) == Text(b)
    ensures a == b
  {
    assert |a| == |b|;
    forall i | 0 <= i < |a| ensures a[i] == b[i] {
      assert Text(a)[i] == Text(b)[i];
    }
  }

  /** Two dates with one text are one date, in any year. */
  lemma DayTextInjective(c: Date, e: Date)
    requires ValidDate(c) && ValidDate(e)
    requires DayText(c) == DayText(e)
    ensures c == e
  {
    Widths();
    FixedReads(c.month, 2);
    FixedReads(e.month, 2);
    FixedReads(c.day, 2);
    FixedReads(e.day, 2);
    ThreeFields(Fixed(c.year, 4), Fixed(c.month, 2), Fixed(c.day, 2),
                Fixed(e.year, 4), Fixed(e.month, 2), Fixed(e.day, 2));
    FixedInjective(c.year, e.year, 4);
  }

  /** A first field of any length, and two of two characters after it. */
  lemma ThreeFields(y: string, m: string, d: string, z: string, n: string, f: string)
    requires |m| == |d| == |n| == |f| == 2
    requires y + "-" + m + "-" + d == z + "-" + n + "-" + f
    ensures y == z && m == n && d == f
  {
    var t := y + "-" + m + "-" + d;
    assert |y| == |z|;
    assert t[..|y|] == y && t[|y| + 1..|y| + 3] == m && t[|y| + 4..] == d;
    assert t[..|z|] == z && t[|z| + 1..|z| + 3] == n && t[|z| + 4..] == f;
  }
}
