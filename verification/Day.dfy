/** Calendar arithmetic for the daily room in a configurable time zone (src/room/day.ts).

    A zone is its offset function: `off(ts)` milliseconds are added to the UTC instant `ts` to get wall-clock
    time. Date.UTC and the field getters of Date follow section 21.4.1 of ECMA-262. */
module Day {

  const DAY_MS := 86_400_000

  // ----- Dates as ECMA-262 counts them -----

  function DayFromYear(y: int): int {
    365 * (y - 1970) + (y - 1969) / 4 - (y - 1901) / 100 + (y - 1601) / 400
  }

  predicate Leap(y: int) {
    y % 4 == 0 && (y % 100 != 0 || y % 400 == 0)
  }

  /** The day within its year on which month `m` (0 to 11) starts. */
  function MonthStart(m: int, leap: bool): int
    requires 0 <= m <= 12
  {
    var plain := if m < 6
                 then (if m == 0 then 0 else if m == 1 then 31 else if m == 2 then 59 else if m == 3 then 90
                       else if m == 4 then 120 else 151)
                 else (if m == 6 then 181 else if m == 7 then 212 else if m == 8 then 243 else if m == 9 then 273
                       else if m == 10 then 304 else if m == 11 then 334 else 365);
    plain + if leap && 2 <= m then 1 else 0
  }

  /** Months outside 0..11 carry into the year and days outside the month carry into the month. */
  function MakeDay(y: int, m: int, dt: int): int {
    var ym := y + m / 12;
    DayFromYear(ym) + MonthStart(m % 12, Leap(ym)) + dt - 1
  }

  /** Date.UTC reads a year from 0 to 99 as 1900 to 1999. */
  function FullYear(y: int): int {
    if 0 <= y <= 99 then 1900 + y else y
  }

  function DateUTC(y: int, m: int, d: int, hh: int, mm: int, ss: int): int {
    MakeDay(FullYear(y), m, d) * DAY_MS + hh * 3_600_000 + mm * 60_000 + ss * 1000
  }

  datatype Date = Date(y: int, m: int, d: int)

  lemma YearLength(y: int)
    ensures DayFromYear(y + 1) == DayFromYear(y) + if Leap(y) then 366 else 365
  {
    Quotient4(y - 1969);
    Quotient100(y - 1901);
    Quotient400(y - 1601);
    Remainder4(y);
    Remainder100(y);
    Remainder400(y);
    Remainder400And100(y);
    assert y + 1 - 1969 == y - 1969 + 1 && y + 1 - 1901 == y - 1901 + 1 && y + 1 - 1601 == y - 1601 + 1;
  }

  lemma Quotient4(x: int)
    ensures (x + 1) / 4 == x / 4 + if (x + 1) % 4 == 0 then 1 else 0
  {
  }

  lemma Quotient100(x: int)
    ensures (x + 1) / 100 == x / 100 + if (x + 1) % 100 == 0 then 1 else 0
  {
  }

  lemma Quotient400(x: int)
    ensures (x + 1) / 400 == x / 400 + if (x + 1) % 400 == 0 then 1 else 0
  {
  }

  lemma Remainder4(y: int)
    ensures (y - 1969 + 1) % 4 == 0 <==> y % 4 == 0
  {
  }

  lemma Remainder100(y: int)
    ensures (y - 1901 + 1) % 100 == 0 <==> y % 100 == 0
    ensures y % 100 == 0 ==> y % 4 == 0
  {
  }

  lemma Remainder400(y: int)
    ensures (y - 1601 + 1) % 400 == 0 <==> y % 400 == 0
  {
  }

  lemma Remainder400And100(y: int)
    ensures y % 400 == 0 ==> y % 100 == 0
  {
  }

  /** The largest year, from `y` on, that has started by day `n`. */
  function YearFrom(y: int, n: int): (r: int)
    requires DayFromYear(y) <= n
    ensures y <= r && DayFromYear(r) <= n < DayFromYear(r + 1)
    decreases n - DayFromYear(y)
  {
    YearLength(y);
    if DayFromYear(y + 1) <= n then YearFrom(y + 1, n) else y
  }

  /** A year that has started by day `n`. */
  function EarlyYear(n: int): (y: int)
    ensures DayFromYear(y) <= n
  {
    var y := 1970 + (if 0 <= n then n / 366 else n / 365 - 1);
    y
  }

  function YearOf(n: int): (y: int)
    ensures DayFromYear(y) <= n < DayFromYear(y + 1)
  {
    YearFrom(EarlyYear(n), n)
  }

  /** The month (0 to 11) of a day within its year. */
  function MonthOf(yday: int, leap: bool, m: int): (r: int)
    requires 0 <= m <= 11 && MonthStart(m, leap) <= yday < MonthStart(12, leap)
    ensures m <= r <= 11 && MonthStart(r, leap) <= yday < MonthStart(r + 1, leap)
    decreases 12 - m
  {
    if yday < MonthStart(m + 1, leap) then m else MonthOf(yday, leap, m + 1)
  }

  lemma DayOfYear(n: int)
    ensures var y := YearOf(n); MonthStart(0, Leap(y)) <= n - DayFromYear(y) < MonthStart(12, Leap(y))
  {
    hide DayFromYear, Leap, YearOf;
    YearLength(YearOf(n));
  }

  /** The calendar date of day `n` (days since 1 January 1970). */
  function DateOf(n: int): Date {
    var y := YearOf(n);
    var yday := n - DayFromYear(y);
    DayOfYear(n);
    var m := MonthOf(yday, Leap(y), 0);
    Date(y, m + 1, yday - MonthStart(m, Leap(y)) + 1)
  }

  lemma DateRoundTrip(n: int)
    ensures var date := DateOf(n);
            MakeDay(date.y, date.m - 1, date.d) == n && 1 <= date.m <= 12 && 1 <= date.d <= 31
  {
    hide DayFromYear, Leap, YearOf, MonthOf, MonthStart;
    var date := DateOf(n);
    YearLength(date.y);
    assert (date.m - 1) / 12 == 0 && (date.m - 1) % 12 == date.m - 1;
    MonthLength(date.m - 1, Leap(date.y));
  }

  lemma MonthLength(m: int, leap: bool)
    requires 0 <= m <= 11
    ensures 28 <= MonthStart(m + 1, leap) - MonthStart(m, leap) <= 31
    ensures MonthStart(0, leap) == 0 && MonthStart(12, leap) == if leap then 366 else 365
  {
  }

  lemma {:induction false} YearsGrow(y1: int, y2: int)
    requires y1 <= y2
    ensures DayFromYear(y1) <= DayFromYear(y2)
    decreases y2 - y1
  {
    if y1 < y2 {
      YearLength(y2 - 1);
      YearsGrow(y1, y2 - 1);
    }
  }

  lemma YearAtLeast(n: int, y: int)
    requires DayFromYear(y) <= n
    ensures y <= DateOf(n).y
  {
    var r := YearOf(n);
    if r < y { YearsGrow(r + 1, y); }
  }

  // ----- Room ids -----

  function Decimal(n: nat): string {
    if n < 10 then [Digit(n)] else Decimal(n / 10) + [Digit(n % 10)]
  }

  function Digit(n: nat): char
    requires n < 10
  {
    "0123456789"[n]
  }

  /** String(n).padStart(2, "0") for numbers of at most two digits. */
  function Pad2(n: nat): string {
    if n < 10 then "0" + Decimal(n) else Decimal(n)
  }

  function RoomId(date: Date): string
    requires 0 <= date.y && 0 <= date.m && 0 <= date.d
  {
    Decimal(date.y) + "-" + Pad2(date.m) + "-" + Pad2(date.d)
  }

  lemma {:induction false} DecimalInjective(a: nat, b: nat)
    requires Decimal(a) == Decimal(b)
    ensures a == b
  {
    hide Decimal, Digit;
    var a', b' := a / 10, b / 10;
    DecimalSplits(a);
    DecimalSplits(b);
    var s, t := if a < 10 then [] else Decimal(a'), if b < 10 then [] else Decimal(b');
    assert (s + [Digit(a % 10)])[..|s|] == s && (t + [Digit(b % 10)])[..|t|] == t;
    assert (s + [Digit(a % 10)])[|s|] == Digit(a % 10) && (t + [Digit(b % 10)])[|t|] == Digit(b % 10);
    DigitInjective(a % 10, b % 10);
    if 10 <= a && 10 <= b { DecimalInjective(a', b'); }
  }

  lemma DecimalSplits(n: nat)
    ensures Decimal(n) == (if n < 10 then [] else Decimal(n / 10)) + [Digit(n % 10)]
    ensures 10 <= n ==> Decimal(n / 10) != []
  {
  }

  lemma Pad2Digits(n: nat)
    requires n < 100
    ensures Pad2(n) == [Digit(n / 10), Digit(n % 10)]
  {
    assert Decimal(n / 10) == [Digit(n / 10)];
  }

  lemma DigitInjective(a: nat, b: nat)
    requires a < 10 && b < 10 && Digit(a) == Digit(b)
    ensures a == b
  {
  }

  lemma Pad2Injective(a: nat, b: nat)
    requires a < 100 && b < 100 && Pad2(a) == Pad2(b)
    ensures a == b
  {
    Pad2Digits(a);
    Pad2Digits(b);
    DigitInjective(a / 10, b / 10);
    DigitInjective(a % 10, b % 10);
  }

  /** Two dates have the same room id only if they are the same date. */
  lemma RoomIdInjective(a: Date, b: Date)
    requires 0 <= a.y && 0 <= a.m < 100 && 0 <= a.d < 100
    requires 0 <= b.y && 0 <= b.m < 100 && 0 <= b.d < 100
    requires RoomId(a) == RoomId(b)
    ensures a == b
  {
    hide RoomId, Pad2, Decimal, Digit;
    Pad2Digits(a.m);
    Pad2Digits(a.d);
    Pad2Digits(b.m);
    Pad2Digits(b.d);
    RoomIdIs(a);
    RoomIdIs(b);
    Dashed(Decimal(a.y), Pad2(a.m), Pad2(a.d), Decimal(b.y), Pad2(b.m), Pad2(b.d));
    Pad2Injective(a.m, b.m);
    Pad2Injective(a.d, b.d);
    DecimalInjective(a.y, b.y);
  }

  lemma RoomIdIs(date: Date)
    requires 0 <= date.y && 0 <= date.m && 0 <= date.d
    ensures RoomId(date) == Decimal(date.y) + "-" + Pad2(date.m) + "-" + Pad2(date.d)
  {
  }

  /** Dashed parts, the last two of two characters each, can be told apart. */
  lemma Dashed(y: string, m: string, d: string, y': string, m': string, d': string)
    requires |m| == |d| == |m'| == |d'| == 2 && y + "-" + m + "-" + d == y' + "-" + m' + "-" + d'
    ensures y == y' && m == m' && d == d'
  {
    var s, t := y + "-" + m + "-" + d, y' + "-" + m' + "-" + d';
    var n := |y|;
    assert |s| == n + 6 && |t| == |y'| + 6;
    assert s[..n] == y && t[..n] == y';
    assert s[n + 1..n + 3] == m && t[n + 1..n + 3] == m';
    assert s[n + 4..] == d && t[n + 4..] == d';
  }

  // ----- The code -----

  type Offset = int -> int

  function Shift(off: Offset, t: int): int {
    off(t)
  }

  datatype Parts = Parts(y: int, m: int, d: int, hh: int, mm: int, ss: int)

  function LocalDay(ts: int, off: Offset): int {
    (ts + Shift(off, ts)) / DAY_MS
  }

  /** What the formatter shows. It leaves the era out, so year 0 shows as 1, year -1 as 2, and so on. */
  function PartsAt(ts: int, off: Offset): Parts {
    var local := ts + Shift(off, ts);
    var date := DateOf(local / DAY_MS);
    var r := local % DAY_MS;
    Parts(if 1 <= date.y then date.y else 1 - date.y, date.m, date.d,
          r / 3_600_000, r % 3_600_000 / 60_000, r % 60_000 / 1000)
  }

  function OffsetAt(ts: int, off: Offset): int {
    var p := PartsAt(ts, off);
    DateUTC(p.y, p.m - 1, p.d, p.hh, p.mm, p.ss) - ts / 1000 * 1000
  }

  function MidnightUtc(y: int, m: int, d: int, off: Offset): int {
    var naive := DateUTC(y, m - 1, d, 0, 0, 0);
    var guess := naive - OffsetAt(naive, off);
    naive - OffsetAt(guess, off)
  }

  datatype Room = Room(roomId: string, day: int, startsAt: int, endsAt: int)

  /** The room of every instant. */
  datatype Calendar = Calendar(roomAt: int -> Room) {
    function RoomAt(t: int): Room { roomAt(t) }
  }

  function Round(x: real): int {
    (x + 0.5).Floor
  }

  function RoomAt(ts: int, off: Offset, epoch: Date): Room {
    var p := PartsAt(ts, off);
    DateRoundTrip(LocalDay(ts, off));
    var startsAt := MidnightUtc(p.y, p.m, p.d, off);
    var next := DateOf(DateUTC(p.y, p.m - 1, p.d + 1, 0, 0, 0) / DAY_MS);
    var endsAt := MidnightUtc(next.y, next.m, next.d, off);
    var elapsed := DateUTC(p.y, p.m - 1, p.d, 0, 0, 0) - DateUTC(epoch.y, epoch.m - 1, epoch.d, 0, 0, 0);
    Room(RoomId(Date(p.y, p.m, p.d)), Round(elapsed as real / DAY_MS as real) + 1, startsAt, endsAt)
  }

  // ----- The hypotheses -----

  /** Offsets are whole seconds, shorter than a day. */
  ghost predicate Clock(off: Offset) {
    forall t :: -DAY_MS < Shift(off, t) < DAY_MS && Shift(off, t) % 1000 == 0
  }

  /** Day `n` begins at instant `m`: from it on every instant has that date or a later one, and before it none. */
  ghost predicate Begins(off: Offset, n: int, m: int) {
    forall t :: n <= LocalDay(t, off) <==> m <= t
  }

  /** Where the code takes day `n` to begin. */
  function Start(n: int, off: Offset): int {
    var date := DateOf(n);
    MidnightUtc(date.y, date.m, date.d, off)
  }

  /** The code is right about day `n`, and no change of the clocks skips that day. */
  ghost predicate Exact(off: Offset, n: int) {
    Begins(off, n, Start(n, off)) && LocalDay(Start(n, off), off) == n
  }

  ghost predicate ExactFrom(off: Offset, first: int) {
    forall n :: first <= n ==> Exact(off, n)
  }

  /** Two days into the year 100; see `TwoDigitYears` for what happens before that year. */
  const ERA := DayFromYear(100) + 2

  // ----- Midnight -----

  lemma DateUTCOfDate(n: int, hh: int, mm: int, ss: int)
    requires DayFromYear(100) <= n
    ensures var date := DateOf(n);
            100 <= date.y
            && DateUTC(date.y, date.m - 1, date.d, hh, mm, ss) == n * DAY_MS + hh * 3_600_000 + mm * 60_000 + ss * 1000
  {
    DateRoundTrip(n);
    YearAtLeast(n, 100);
  }

  lemma WallClock(local: int)
    ensures var r := local % DAY_MS;
            local / DAY_MS * DAY_MS + r / 3_600_000 * 3_600_000 + r % 3_600_000 / 60_000 * 60_000
              + r % 60_000 / 1000 * 1000
            == local / 1000 * 1000
  {
    var r := local % DAY_MS;
    assert local == local / DAY_MS * DAY_MS + r;
    TimeOfDay(r);
    WholeSeconds(r, local / DAY_MS * 86_400);
  }

  lemma TimeOfDay(r: nat)
    ensures r / 3_600_000 * 3_600_000 + r % 3_600_000 / 60_000 * 60_000 + r % 60_000 / 1000 * 1000 == r / 1000 * 1000
  {
    var h := r % 3_600_000;
    assert r == r / 3_600_000 * 3_600_000 + h;
    Minutes(h, r / 3_600_000 * 60);
    var m := r % 60_000;
    assert h == h / 60_000 * 60_000 + m;
    WholeSeconds(m, r / 3_600_000 * 3600 + h / 60_000 * 60);
  }

  lemma Minutes(h: nat, k: int)
    ensures (h + k * 60_000) % 60_000 == h % 60_000
  {
  }

  lemma WholeSeconds(x: int, k: int)
    ensures (x + k * 1000) / 1000 * 1000 == x / 1000 * 1000 + k * 1000
  {
  }

  lemma LocalDayIs(ts: int, off: Offset)
    ensures LocalDay(ts, off) == (ts + Shift(off, ts)) / DAY_MS
  {
  }

  lemma OffsetAtMeans(ts: int, off: Offset)
    ensures var local := ts + Shift(off, ts);
            var date, r := DateOf(local / DAY_MS), local % DAY_MS;
            1 <= date.y ==>
              OffsetAt(ts, off)
                == DateUTC(date.y, date.m - 1, date.d, r / 3_600_000, r % 3_600_000 / 60_000, r % 60_000 / 1000)
                                   - ts / 1000 * 1000
  {
    hide DateOf, DateUTC, Shift;
  }

  /** Reading the formatted fields back gives the offset itself. */
  lemma OffsetAtExact(ts: int, off: Offset)
    requires Shift(off, ts) % 1000 == 0 && DayFromYear(100) <= LocalDay(ts, off)
    ensures OffsetAt(ts, off) == Shift(off, ts)
  {
    hide DateOf, DateUTC, DayFromYear, Shift, LocalDay, OffsetAt;
    var local := ts + Shift(off, ts);
    LocalDayIs(ts, off);
    var r := local % DAY_MS;
    DateUTCOfDate(local / DAY_MS, r / 3_600_000, r % 3_600_000 / 60_000, r % 60_000 / 1000);
    OffsetAtMeans(ts, off);
    WallClock(local);
    var seconds := Shift(off, ts) / 1000;
    assert Shift(off, ts) == seconds * 1000;
    WholeSeconds(ts, seconds);
  }

  /** The search in terms of the offsets it looks at. */
  lemma TwoSteps(n: int, off: Offset)
    requires Clock(off) && ERA <= n
    ensures Start(n, off) == n * DAY_MS - Shift(off, n * DAY_MS - Shift(off, n * DAY_MS))
  {
    hide DateOf, DateUTC, DayFromYear, OffsetAt, Shift;
    var naive := n * DAY_MS;
    DateUTCOfDate(n, 0, 0, 0);
    assert n - 2 <= LocalDay(naive, off);
    OffsetAtExact(naive, off);
    var guess := naive - Shift(off, naive);
    assert n - 2 <= LocalDay(guess, off);
    OffsetAtExact(guess, off);
  }

  /** Around the UTC midnight of day `n` the clocks change at most once, at `change` from `a` to `b`. */
  ghost predicate OneChange(off: Offset, n: int, change: int, a: int, b: int) {
    && -DAY_MS < a < DAY_MS && -DAY_MS < b < DAY_MS
    && forall t :: (n - 1) * DAY_MS < t < (n + 1) * DAY_MS ==> Shift(off, t) == if t < change then a else b
  }

  /** The change leaves the midnight of day `n` alone: it neither skips it nor repeats it; and clocks that go
      forward at midnight itself are not behind UTC, nor clocks that go back to midnight ahead of it or on it. */
  predicate Harmless(n: int, change: int, a: int, b: int) {
    var midnight := n * DAY_MS;
    && !(change + a < midnight < change + b)
    && !(change + b < midnight < change + a)
    && !(change + a == midnight && a < b && a < 0)
    && !(change + b == midnight && b < a && 0 <= b)
  }

  /** The search with the offsets around the midnight written out. */
  function Found(midnight: int, change: int, a: int, b: int): int {
    var guess := midnight - if midnight < change then a else b;
    midnight - if guess < change then a else b
  }

  lemma Finds(n: int, off: Offset, change: int, a: int, b: int)
    requires Clock(off) && ERA <= n && OneChange(off, n, change, a, b)
    ensures Start(n, off) == Found(n * DAY_MS, change, a, b)
  {
    hide Shift, DayFromYear, Start;
    TwoSteps(n, off);
    var midnight := n * DAY_MS;
    assert Shift(off, midnight) == if midnight < change then a else b;
    var guess := midnight - Shift(off, midnight);
    assert (n - 1) * DAY_MS < guess < (n + 1) * DAY_MS;
  }

  /** Has day `n` begun? Far from its midnight the answer is plain; near it one of the two offsets applies. */
  lemma HasBegun(n: int, off: Offset, change: int, a: int, b: int, t: int)
    requires Clock(off) && OneChange(off, n, change, a, b)
    ensures n <= LocalDay(t, off) <==> n * DAY_MS <= t + if t < change then a else b
    ensures n * DAY_MS - DAY_MS < t < n * DAY_MS + DAY_MS ==>
            LocalDay(t, off) == (t + if t < change then a else b) / DAY_MS
  {
    hide Shift;
  }

  /** The search finds the start of a day exactly when the change of the clocks around it is harmless. */
  lemma MidnightExactly(n: int, off: Offset, change: int, a: int, b: int)
    requires Clock(off) && ERA <= n && OneChange(off, n, change, a, b)
    ensures Begins(off, n, Start(n, off)) <==> Harmless(n, change, a, b)
    ensures Harmless(n, change, a, b) ==> Exact(off, n)
  {
    hide Shift, DayFromYear, Start, Clock, OneChange, LocalDay;
    Finds(n, off, change, a, b);
    var midnight := n * DAY_MS;
    var m := Found(midnight, change, a, b);
    assert -DAY_MS < a < DAY_MS && -DAY_MS < b < DAY_MS by { Bounded(n, off, change, a, b); }
    HasBegun(n, off, change, a, b, m);
    if Harmless(n, change, a, b) {
      forall t
        ensures n <= LocalDay(t, off) <==> m <= t
      {
        HasBegun(n, off, change, a, b, t);
      }
      assert midnight <= m + (if m < change then a else b) < midnight + DAY_MS;
    } else {
      HasBegun(n, off, change, a, b, change);
      HasBegun(n, off, change, a, b, midnight - a);
      assert Begins(off, n, m) ==>
          && n <= LocalDay(m, off) && (n <= LocalDay(change, off) <==> m <= change)
          && (n <= LocalDay(midnight - a, off) <==> m <= midnight - a);
    }
  }

  lemma Bounded(n: int, off: Offset, change: int, a: int, b: int)
    requires OneChange(off, n, change, a, b)
    ensures -DAY_MS < a < DAY_MS && -DAY_MS < b < DAY_MS
  {
  }

  // ----- Rooms -----

  lemma RoomDay(n: int, k: int)
    ensures Round((n * DAY_MS - k * DAY_MS) as real / DAY_MS as real) == n - k
  {
    assert (n * DAY_MS - k * DAY_MS) as real == (n - k) as real * DAY_MS as real;
    assert (n - k) as real * DAY_MS as real / DAY_MS as real == (n - k) as real;
  }

  /** Day 32 of a month is the next month's first: the date after a date. */
  lemma NextDate(n: int)
    requires DayFromYear(100) <= n
    ensures var date := DateOf(n);
            && 100 <= date.y && 1 <= date.m <= 12 && 1 <= date.d <= 31
            && DateUTC(date.y, date.m - 1, date.d, 0, 0, 0) == n * DAY_MS
            && DateUTC(date.y, date.m - 1, date.d + 1, 0, 0, 0) / DAY_MS == n + 1
  {
    hide DateOf, DayFromYear;
    DateUTCOfDate(n, 0, 0, 0);
    DateRoundTrip(n);
    assert (n + 1) * DAY_MS / DAY_MS == n + 1;
  }

  lemma EpochUTC(epoch: Date)
    ensures DateUTC(epoch.y, epoch.m - 1, epoch.d, 0, 0, 0) == EpochDay(epoch) * DAY_MS
  {
  }

  function EpochDay(epoch: Date): int {
    MakeDay(FullYear(epoch.y), epoch.m - 1, epoch.d)
  }

  /** What `RoomAt` returns, in terms of the local day. */
  lemma RoomAtMeaning(ts: int, off: Offset, epoch: Date)
    requires ERA <= LocalDay(ts, off)
    ensures var n := LocalDay(ts, off);
            && 100 <= DateOf(n).y && 1 <= DateOf(n).m <= 12 && 1 <= DateOf(n).d <= 31
            && RoomAt(ts, off, epoch)
               == Room(RoomId(DateOf(n)), n - EpochDay(epoch) + 1, Start(n, off), Start(n + 1, off))
  {
    hide DateOf, DateUTC, DayFromYear, MidnightUtc, MakeDay, RoomId, Round;
    var n := LocalDay(ts, off);
    NextDate(n);
    EpochUTC(epoch);
    RoomDay(n, EpochDay(epoch));
  }

  /** Two instants have the same room id exactly if they have the same local date. */
  lemma SameRoomId(n: int, k: int)
    requires ERA <= n && ERA <= k
    ensures RoomId(DateOf(n)) == RoomId(DateOf(k)) <==> n == k
  {
    hide DateOf, DayFromYear, RoomId, MakeDay;
    NextDate(n);
    NextDate(k);
    DateRoundTrip(n);
    DateRoundTrip(k);
    if RoomId(DateOf(n)) == RoomId(DateOf(k)) { RoomIdInjective(DateOf(n), DateOf(k)); }
  }

  /** The room of an instant contains it; exactly the instants between its start and its end have its id, and
      they have the very same room; and rooms only move forward. */
  ghost predicate Tile(r: Room, s: Room, t: int, u: int) {
    && r.startsAt <= t < r.endsAt && (r.startsAt <= u < r.endsAt <==> s.roomId == r.roomId)
    && (s.roomId == r.roomId ==> s == r) && (t <= u ==> r.day <= s.day) && (r.day == s.day ==> s == r)
  }

  /** The room that starts at the end of another is the next day's. */
  ghost predicate Follows(r: Room, s: Room) {
    s.startsAt == r.endsAt && s.day == r.day + 1
  }

  /** From day `first` on rooms tile time. */
  ghost predicate TileFrom(off: Offset, epoch: Date, first: int) {
    forall t, u :: first <= LocalDay(t, off) && first <= LocalDay(u, off) ==>
      var r := RoomAt(t, off, epoch);
      Tile(r, RoomAt(u, off, epoch), t, u) && Follows(r, RoomAt(r.endsAt, off, epoch))
  }

  /** Rooms tile time wherever the code is right about midnight. */
  lemma RoomsTile(off: Offset, epoch: Date, first: int)
    requires ERA <= first && ExactFrom(off, first)
    ensures TileFrom(off, epoch, first)
  {
    hide DateOf, DayFromYear, RoomAt, RoomId, MakeDay, LocalDay, Start, Tile, Follows, ExactFrom;
    forall t, u | first <= LocalDay(t, off) && first <= LocalDay(u, off)
      ensures var r := RoomAt(t, off, epoch);
              Tile(r, RoomAt(u, off, epoch), t, u) && Follows(r, RoomAt(r.endsAt, off, epoch))
    {
      OneTile(off, epoch, first, t, u);
    }
  }

  lemma OneTile(off: Offset, epoch: Date, first: int, t: int, u: int)
    requires ERA <= first && ExactFrom(off, first) && first <= LocalDay(t, off) && first <= LocalDay(u, off)
    ensures var r := RoomAt(t, off, epoch);
            Tile(r, RoomAt(u, off, epoch), t, u) && Follows(r, RoomAt(r.endsAt, off, epoch))
  {
    hide DateOf, DayFromYear, RoomAt, RoomId, MakeDay, LocalDay, Start;
    var n, k := LocalDay(t, off), LocalDay(u, off);
    assert Exact(off, n) && Exact(off, n + 1) && Exact(off, k) && Exact(off, k + 1);
    hide ExactFrom;
    RoomAtMeaning(t, off, epoch);
    RoomAtMeaning(u, off, epoch);
    RoomAtMeaning(Start(n + 1, off), off, epoch);
    SameRoomId(n, k);
  }

  // ----- And only there -----

  /** Local days are never more than a day away from those of UTC. */
  lemma DaysApart(off: Offset, t: int, n: int)
    requires Clock(off)
    ensures (n - 1) * DAY_MS <= t ==> n - 2 <= LocalDay(t, off)
    ensures t <= n * DAY_MS ==> LocalDay(t, off) <= n
    ensures LocalDay(t, off) < n ==> t < (n + 1) * DAY_MS
  {
  }

  lemma StartsLate(off: Offset, n: int)
    requires Clock(off) && ERA <= n
    ensures (n - 1) * DAY_MS < Start(n, off)
  {
    TwoSteps(n, off);
    hide Start, DayFromYear;
  }

  /** The day after an inhabited day begins where its room ends. */
  lemma NextDay(off: Offset, epoch: Date, first: int, t: int)
    requires Clock(off) && ERA < first <= LocalDay(t, off) && TileFrom(off, epoch, first)
    ensures var n := LocalDay(t, off);
            Start(n, off) <= t < Start(n + 1, off) && LocalDay(Start(n + 1, off), off) == n + 1
  {
    hide DateOf, DayFromYear, RoomAt, RoomId, MakeDay, LocalDay, Start, Clock, Tile, Follows;
    var n := LocalDay(t, off);
    StartsLate(off, n + 1);
    DaysApart(off, Start(n + 1, off), n + 1);
    RoomAtMeaning(t, off, epoch);
    RoomAtMeaning(Start(n + 1, off), off, epoch);
    var r := RoomAt(t, off, epoch);
    assert Tile(r, r, t, t) && Follows(r, RoomAt(r.endsAt, off, epoch));
    hide TileFrom;
    TileMeans(r, RoomAt(r.endsAt, off, epoch), t);
  }

  lemma TileMeans(r: Room, s: Room, t: int)
    requires Tile(r, r, t, t) && Follows(r, s)
    ensures r.startsAt <= t < r.endsAt && s.day == r.day + 1
  {
  }

  /** From the third day on every day begins at an instant that has its date, and before the next one does. */
  lemma {:induction false} NoneSkipped(off: Offset, epoch: Date, first: int, n: int)
    requires Clock(off) && ERA < first && TileFrom(off, epoch, first) && first + 2 <= n
    ensures LocalDay(Start(n, off), off) == n && Start(n, off) < Start(n + 1, off)
    decreases n - first
  {
    hide Clock, LocalDay, Start, TileFrom, DayFromYear;
    if first + 2 < n {
      NoneSkipped(off, epoch, first, n - 1);
      NextDay(off, epoch, first, Start(n - 1, off));
    } else {
      var t := (first + 1) * DAY_MS;
      DaysApart(off, t, first + 1);
      DaysApart(off, t, first + 2);
      NextDay(off, epoch, first, t);
      if LocalDay(t, off) == first { NextDay(off, epoch, first, Start(first + 1, off)); }
    }
    NextDay(off, epoch, first, Start(n, off));
  }

  lemma {:induction false} StartsGrow(off: Offset, epoch: Date, first: int, m: int, n: int)
    requires Clock(off) && ERA < first && TileFrom(off, epoch, first) && first + 2 <= m <= n
    ensures Start(m, off) <= Start(n, off)
    decreases n - m
  {
    hide Clock, LocalDay, Start, TileFrom, DayFromYear;
    if m < n {
      StartsGrow(off, epoch, first, m, n - 1);
      NoneSkipped(off, epoch, first, n - 1);
    }
  }

  /** Where rooms tile time, the code is right about every midnight from the fourth day on. */
  lemma TilingIsExact(off: Offset, epoch: Date, first: int)
    requires Clock(off) && ERA < first && TileFrom(off, epoch, first)
    ensures ExactFrom(off, first + 3)
  {
    hide Clock, LocalDay, Start, TileFrom, DayFromYear;
    forall n, t | first + 3 <= n
      ensures n <= LocalDay(t, off) <==> Start(n, off) <= t
    {
      Separates(off, epoch, first, n, t);
    }
    forall n | first + 3 <= n
      ensures Exact(off, n)
    {
      NoneSkipped(off, epoch, first, n);
    }
  }

  lemma Separates(off: Offset, epoch: Date, first: int, n: int, t: int)
    requires Clock(off) && ERA < first && TileFrom(off, epoch, first) && first + 3 <= n
    ensures n <= LocalDay(t, off) <==> Start(n, off) <= t
  {
    hide Clock, LocalDay, Start, TileFrom, DayFromYear;
    var k := LocalDay(t, off);
    if first + 2 <= k {
      NextDay(off, epoch, first, t);
      if n <= k { StartsGrow(off, epoch, first, n, k); } else { StartsGrow(off, epoch, first, k + 1, n); }
    } else {
      DaysApart(off, t, first + 2);
      DaysApart(off, t, first + 1);
      StartsLate(off, n);
      NoneSkipped(off, epoch, first, first + 2);
      StartsGrow(off, epoch, first, first + 3, n);
      if k == first + 1 { NextDay(off, epoch, first, t); }
    }
  }

  // ----- Zones whose offset is constant around midnight -----

  /** Offsets that span at most `J`. */
  ghost predicate Zone(off: Offset, J: int) {
    Clock(off) && forall t, u :: Shift(off, t) - Shift(off, u) <= J
  }

  /** At instant `m` the wall clock shows midnight of day `n`, and the offset is constant within `J` of it. */
  ghost predicate StableMidnight(off: Offset, J: int, n: int, m: int) {
    m + Shift(off, m) == n * DAY_MS && forall t :: m - J <= t <= m + J ==> Shift(off, t) == Shift(off, m)
  }

  ghost predicate HasMidnight(off: Offset, J: int, n: int) {
    exists m :: StableMidnight(off, J, n, m)
  }

  ghost predicate StableMidnights(off: Offset, J: int) {
    forall n :: HasMidnight(off, J, n)
  }

  /** The search finds a stable midnight. */
  lemma MidnightExact(n: int, m: int, off: Offset, J: int)
    requires Zone(off, J) && StableMidnight(off, J, n, m) && ERA <= n
    ensures Start(n, off) == m
  {
    hide Start, DayFromYear, Zone, Clock, StableMidnight, Shift;
    ZoneIsClock(off, J);
    TwoSteps(n, off);
    var naive := n * DAY_MS;
    Spans(off, J, naive, m);
    StableAround(off, J, n, m, naive - Shift(off, naive));
  }

  lemma ZoneIsClock(off: Offset, J: int)
    requires Zone(off, J)
    ensures Clock(off)
  {
  }

  lemma Spans(off: Offset, J: int, t: int, u: int)
    requires Zone(off, J)
    ensures -J <= Shift(off, t) - Shift(off, u) <= J
  {
  }

  lemma StableAround(off: Offset, J: int, n: int, m: int, t: int)
    requires StableMidnight(off, J, n, m)
    ensures m + Shift(off, m) == n * DAY_MS && (m - J <= t <= m + J ==> Shift(off, t) == Shift(off, m))
  {
  }

  /** A stable midnight is the exact start of its local date. */
  lemma MidnightSeparates(n: int, m: int, off: Offset, J: int, t: int)
    requires Zone(off, J) && StableMidnight(off, J, n, m)
    ensures n <= LocalDay(t, off) <==> m <= t
  {
    hide Zone, StableMidnight, Shift;
    Spans(off, J, t, m);
    StableAround(off, J, n, m, t);
    assert n * DAY_MS <= t + Shift(off, t) <==> m <= t;
  }

  /** So the code is right about every midnight of a zone whose midnights are all stable, and its rooms tile time. */
  lemma StableMidnightsAreExact(off: Offset, J: int, epoch: Date)
    requires Zone(off, J) && StableMidnights(off, J)
    ensures ExactFrom(off, ERA) && TileFrom(off, epoch, ERA)
  {
    hide DayFromYear, Start, Zone, TileFrom;
    forall n | ERA <= n
      ensures Exact(off, n)
    {
      assert HasMidnight(off, J, n);
      var m :| StableMidnight(off, J, n, m);
      MidnightExact(n, m, off, J);
      forall t
        ensures n <= LocalDay(t, off) <==> m <= t
      {
        MidnightSeparates(n, m, off, J, t);
      }
    }
    assert Clock(off) by { ZoneIsClock(off, J); }
    RoomsTile(off, epoch, ERA);
  }

  // ----- Zones that change their offset -----

  /** Every change that touches a midnight from `first` on is harmless there. */
  ghost predicate HarmlessFrom(off: Offset, first: int) {
    forall n, at, a, b :: first <= n && OneChange(off, n, at, a, b) ==> Harmless(n, at, a, b)
  }

  ghost predicate HasOneChange(off: Offset, n: int) {
    exists at, a, b :: OneChange(off, n, at, a, b)
  }

  /** In a zone whose clocks change at most once within a day of any midnight, rooms tile time if every change is
      harmless, and only if every change from the fourth day on is. */
  lemma RoomsTileExactly(off: Offset, epoch: Date, first: int)
    requires Clock(off) && ERA < first && forall n :: first <= n ==> HasOneChange(off, n)
    ensures HarmlessFrom(off, first) ==> TileFrom(off, epoch, first)
    ensures TileFrom(off, epoch, first) ==> HarmlessFrom(off, first + 3)
  {
    hide DayFromYear, Start, Clock, TileFrom, OneChange, Harmless, Begins;
    if HarmlessFrom(off, first) {
      forall n | first <= n
        ensures Exact(off, n)
      {
        assert HasOneChange(off, n);
        var at, a, b :| OneChange(off, n, at, a, b);
        MidnightExactly(n, off, at, a, b);
      }
      RoomsTile(off, epoch, first);
    }
    if TileFrom(off, epoch, first) {
      TilingIsExact(off, epoch, first);
      forall n, at, a, b | first + 3 <= n && OneChange(off, n, at, a, b)
        ensures Harmless(n, at, a, b)
      {
        assert Exact(off, n);
        MidnightExactly(n, off, at, a, b);
      }
    }
  }

  /** A zone that changes its offset once, from `a` to `b` at instant `at`. */
  function Changing(at: int, a: int, b: int): Offset {
    (t: int) => if t < at then a else b
  }

  lemma ChangingOnce(at: int, a: int, b: int, n: int)
    requires -DAY_MS < a < DAY_MS && a % 1000 == 0 && -DAY_MS < b < DAY_MS && b % 1000 == 0
    ensures Clock(Changing(at, a, b)) && OneChange(Changing(at, a, b), n, at, a, b)
  {
  }

  /** For such a zone: the code is right about all midnights exactly when the change is harmless at all of them. */
  lemma OneChangeExactly(at: int, a: int, b: int, first: int)
    requires -DAY_MS < a < DAY_MS && a % 1000 == 0 && -DAY_MS < b < DAY_MS && b % 1000 == 0 && ERA <= first
    ensures ExactFrom(Changing(at, a, b), first) <==> forall n :: first <= n ==> Harmless(n, at, a, b)
  {
    var off := Changing(at, a, b);
    hide DayFromYear, Start, Clock, OneChange, Harmless, Begins, Changing;
    forall n | first <= n
      ensures Exact(off, n) <==> Harmless(n, at, a, b)
    {
      ChangingOnce(at, a, b, n);
      MidnightExactly(n, off, at, a, b);
    }
  }

  /** Harmless are: a change within one local day, away from both its midnights; clocks that go forward at
      midnight itself, on UTC or ahead of it; and clocks that go back to midnight, behind UTC. */
  lemma HarmlessChanges(at: int, a: int, b: int, n: int)
    requires -DAY_MS <= b - a <= DAY_MS
    requires || ((at + a) / DAY_MS == (at + b) / DAY_MS && 0 < (at + a) % DAY_MS && 0 < (at + b) % DAY_MS)
             || ((at + a) % DAY_MS == 0 && 0 <= a <= b)
             || ((at + b) % DAY_MS == 0 && b <= a && b < 0)
    ensures Harmless(n, at, a, b)
  {
    var d, e := (at + a) / DAY_MS, (at + b) / DAY_MS;
    assert at + a == d * DAY_MS + (at + a) % DAY_MS && at + b == e * DAY_MS + (at + b) % DAY_MS;
    assert n <= d ==> n * DAY_MS <= d * DAY_MS;
    assert d < n ==> d * DAY_MS + DAY_MS <= n * DAY_MS;
    assert n <= e ==> n * DAY_MS <= e * DAY_MS;
    assert e < n ==> e * DAY_MS + DAY_MS <= n * DAY_MS;
  }

  const HOUR := 3_600_000

  /** One example of each harmful kind, around the midnight between days `n` and `n + 1`. */
  lemma HarmfulChanges(n: int, epoch: Date)
    requires ERA <= n
    ensures var at := (n + 1) * DAY_MS - HOUR / 2; // 23:30 becomes 00:30
            LocalDay(at, Changing(at, 0, HOUR)) == n + 1 && at < RoomAt(at, Changing(at, 0, HOUR), epoch).startsAt
    ensures var at := (n + 1) * DAY_MS - HOUR / 2; // 00:30 becomes 23:30
            LocalDay(at - 1, Changing(at, HOUR, 0)) == n + 1
            && at - 1 < RoomAt(at - 1, Changing(at, HOUR, 0), epoch).startsAt
    ensures var at := (n + 1) * DAY_MS + 3 * HOUR; // 00:00 becomes 01:00, behind UTC
            LocalDay(at - 1, Changing(at, -3 * HOUR, -2 * HOUR)) == n &&
            RoomAt(at - 1, Changing(at, -3 * HOUR, -2 * HOUR), epoch).endsAt == at - HOUR
    ensures var at := (n + 1) * DAY_MS - 2 * HOUR; // 01:00 becomes 00:00, ahead of UTC
            LocalDay(at - 1, Changing(at, 3 * HOUR, 2 * HOUR)) == n + 1 &&
            RoomAt(at - 1, Changing(at, 3 * HOUR, 2 * HOUR), epoch).startsAt == at
  {
    hide DayFromYear, Start, DateOf, RoomId, MidnightUtc, RoomAt;
    var midnight := (n + 1) * DAY_MS;
    Example(midnight - HOUR / 2, 0, HOUR, n, midnight - HOUR / 2, epoch);
    Example(midnight - HOUR / 2, HOUR, 0, n, midnight - HOUR / 2 - 1, epoch);
    Example(midnight + 3 * HOUR, -3 * HOUR, -2 * HOUR, n, midnight + 3 * HOUR - 1, epoch);
    Example(midnight - 2 * HOUR, 3 * HOUR, 2 * HOUR, n, midnight - 2 * HOUR - 1, epoch);
  }

  lemma ChangingDay(at: int, a: int, b: int, t: int)
    ensures LocalDay(t, Changing(at, a, b)) == (t + if t < at then a else b) / DAY_MS
  {
  }

  lemma Example(at: int, a: int, b: int, n: int, t: int, epoch: Date)
    requires -DAY_MS < a < DAY_MS && a % 1000 == 0 && -DAY_MS < b < DAY_MS && b % 1000 == 0 && ERA <= n
    ensures LocalDay(t, Changing(at, a, b)) == (t + if t < at then a else b) / DAY_MS
    ensures LocalDay(t, Changing(at, a, b)) == n ==>
              RoomAt(t, Changing(at, a, b), epoch).endsAt == Found((n + 1) * DAY_MS, at, a, b)
    ensures LocalDay(t, Changing(at, a, b)) == n + 1 ==>
              RoomAt(t, Changing(at, a, b), epoch).startsAt == Found((n + 1) * DAY_MS, at, a, b)
  {
    hide DayFromYear, Start, DateOf, RoomId, MidnightUtc, RoomAt, Found, Changing, OneChange, Clock, LocalDay;
    var off := Changing(at, a, b);
    ChangingDay(at, a, b, t);
    ChangingOnce(at, a, b, n + 1);
    Finds(n + 1, off, at, a, b);
    if ERA <= LocalDay(t, off) { RoomAtMeaning(t, off, epoch); }
  }

  // ----- Early years -----

  /** In the years 1 to 99 Date.UTC adds 1900, so in every zone the room starts some 1900 years late. */
  lemma TwoDigitYears(t: int, off: Offset, epoch: Date)
    requires Clock(off) && 1 <= DateOf(LocalDay(t, off)).y <= 99
    ensures t < RoomAt(t, off, epoch).startsAt
  {
    hide DateOf, DayFromYear, OffsetAt, Shift, LocalDay, Clock, MakeDay;
    var n := LocalDay(t, off);
    var date := DateOf(n);
    DateRoundTrip(n);
    LocalDayIs(t, off);
    var k := MakeDay(1900 + date.y, date.m - 1, date.d);
    LateYears(date.y, date.m, date.d);
    var naive := k * DAY_MS;
    assert DateUTC(date.y, date.m - 1, date.d, 0, 0, 0) == naive;
    DaysApart(off, naive, k + 1);
    Shifts(off, naive);
    OffsetAtExact(naive, off);
    var guess := naive - Shift(off, naive);
    DaysApart(off, guess, k);
    Shifts(off, guess);
    OffsetAtExact(guess, off);
    DaysApart(off, t, n + 1);
  }

  lemma Shifts(off: Offset, t: int)
    requires Clock(off)
    ensures -DAY_MS < Shift(off, t) < DAY_MS && Shift(off, t) % 1000 == 0
  {
  }

  lemma LateYears(y: int, m: int, d: int)
    requires 1 <= y <= 99 && 1 <= m <= 12 && 1 <= d
    ensures DayFromYear(100) + 2 <= MakeDay(1900 + y, m - 1, d)
    ensures MakeDay(y, m - 1, d) + 3 <= MakeDay(1900 + y, m - 1, d)
  {
    YearsGrow(101, 1900 + y);
    assert (m - 1) / 12 == 0;
    MonthLength(m - 1, Leap(y));
  }
}
