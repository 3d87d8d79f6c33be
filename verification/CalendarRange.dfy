/** Zoned calendar months.  Instants are milliseconds; a zone gives the offset of the local clock in whole seconds. */
module CalendarRange {
  import opened Wrappers

  const DAY := 86_400_000
  const DAY_SECONDS := 86_400
  const ATTEMPTS := 4

  // ---------- the civil calendar ----------

  datatype Civil = Civil(year: int, month: int, day: int)

  predicate Leap(y: int) { y % 4 == 0 && (y % 100 != 0 || y % 400 == 0) }

  function MonthLength(y: int, m: int): int {
    if m == 2 then (if Leap(y) then 29 else 28) else if m == 4 || m == 6 || m == 9 || m == 11 then 30 else 31
  }

  /** Days of a year before its month `m`. */
  function MonthStart(y: int, m: int): int
    requires 1 <= m <= 12
    decreases m
  {
    if m == 1 then 0 else MonthStart(y, m - 1) + MonthLength(y, m - 1)
  }

  function LeapsThrough(y: int): int { y / 4 - y / 100 + y / 400 }

  /** Days from 1970-01-01 to the first of January of a year. */
  function YearStart(y: int): int { 365 * (y - 1970) + LeapsThrough(y - 1) - LeapsThrough(1969) }

  predicate ValidCivil(c: Civil) { 1 <= c.month <= 12 && 1 <= c.day <= MonthLength(c.year, c.month) }

  /** `Date.UTC(year, month - 1, day) / 86_400_000`. */
  function Days(c: Civil): int
    requires 1 <= c.month <= 12
  {
    YearStart(c.year) + MonthStart(c.year, c.month) + c.day - 1
  }

  function NextDay(c: Civil): Civil {
    if c.day < MonthLength(c.year, c.month) then c.(day := c.day + 1)
    else if c.month < 12 then Civil(c.year, c.month + 1, 1)
    else Civil(c.year + 1, 1, 1)
  }

  function PreviousDay(c: Civil): Civil {
    if c.day > 1 then c.(day := c.day - 1)
    else if c.month > 1 then Civil(c.year, c.month - 1, MonthLength(c.year, c.month - 1))
    else Civil(c.year - 1, 12, 31)
  }

  lemma YearsAdvance(y: int)
    ensures YearStart(y + 1) == YearStart(y) + MonthStart(y, 12) + 31
  {
    YearLength(y);
    LeapCount(y);
  }

  lemma LeapCount(y: int)
    ensures LeapsThrough(y) == LeapsThrough(y - 1) + if Leap(y) then 1 else 0
  {
    Quotients(y, 4);
    Quotients(y, 100);
    Quotients(y, 400);
  }

  lemma Quotients(y: int, k: int)
    requires k == 4 || k == 100 || k == 400
    ensures y / k == (y - 1) / k + if y % k == 0 then 1 else 0
  {
  }

  lemma YearLength(y: int)
    ensures MonthStart(y, 12) + 31 == if Leap(y) then 366 else 365
  {
    assert MonthStart(y, 4) == MonthStart(y, 3) + 31 && MonthStart(y, 3) == 31 + MonthLength(y, 2);
    assert MonthStart(y, 8) == MonthStart(y, 4) + 30 + 31 + 30 + 31;
    assert MonthStart(y, 12) == MonthStart(y, 8) + 31 + 30 + 31 + 30;
  }

  lemma DaysAdvance(c: Civil)
    requires ValidCivil(c)
    ensures ValidCivil(NextDay(c)) && Days(NextDay(c)) == Days(c) + 1
    ensures ValidCivil(PreviousDay(c)) && Days(PreviousDay(c)) == Days(c) - 1
  {
    hide Days, ValidCivil;
    NextDayAdvances(c);
    PreviousDayRecedes(c);
  }

  lemma NextDayAdvances(c: Civil)
    requires ValidCivil(c)
    ensures ValidCivil(NextDay(c)) && Days(NextDay(c)) == Days(c) + 1
  {
    hide YearStart, MonthStart;
    FirstMonth(c.year + 1);
    if c.month < 12 { MonthStep(c.year, c.month); } else { YearsAdvance(c.year); }
  }

  lemma PreviousDayRecedes(c: Civil)
    requires ValidCivil(c)
    ensures ValidCivil(PreviousDay(c)) && Days(PreviousDay(c)) == Days(c) - 1
  {
    hide YearStart, MonthStart;
    FirstMonth(c.year);
    if c.month > 1 { MonthStep(c.year, c.month - 1); } else { YearsAdvance(c.year - 1); }
  }

  lemma MonthStep(y: int, m: int)
    requires 1 <= m < 12
    ensures MonthStart(y, m + 1) == MonthStart(y, m) + MonthLength(y, m) && MonthLength(y, m) >= 28
  {
  }

  lemma FirstMonth(y: int)
    ensures MonthStart(y, 1) == 0
  {
  }

  /** The civil date of a day: what the zone formatter reads. */
  function CivilOf(n: int): (c: Civil)
    ensures ValidCivil(c) && Days(c) == n
    decreases if n < 0 then -n else n
  {
    if n == 0 then Civil(1970, 1, 1)
    else if n > 0 then
      DaysAdvance(CivilOf(n - 1));
      NextDay(CivilOf(n - 1))
    else
      DaysAdvance(CivilOf(n + 1));
      PreviousDay(CivilOf(n + 1))
  }

  // ---------- zones ----------

  /** The local clock at an instant, in milliseconds. */
  function Local(zone: int -> int, t: int): int { t + zone(t) * 1000 }

  /** `calendarParts`: the local date and the second of the day; fractions of a second are dropped. */
  datatype Parts = Parts(date: Civil, second: int)

  function PartsAt(zone: int -> int, t: int): (p: Parts)
    ensures ValidCivil(p.date) && 0 <= p.second < DAY_SECONDS
  {
    var local := Local(zone, t);
    Parts(CivilOf(local / DAY), local % DAY / 1000)
  }

  function Epoch(p: Parts): int
    requires ValidCivil(p.date)
  {
    Days(p.date) * DAY + p.second * 1000
  }

  lemma EpochIsLocal(zone: int -> int, t: int)
    ensures Epoch(PartsAt(zone, t)) == Local(zone, t) - Local(zone, t) % 1000
  {
    hide Days, CivilOf;
    var local := Local(zone, t);
    var p := PartsAt(zone, t);
    assert Days(p.date) == local / DAY;
    DaysAndSeconds(local);
  }

  lemma DaysAndSeconds(local: int)
    ensures local / DAY * DAY + local % DAY / 1000 * 1000 == local - local % 1000
  {
    var d, r := local / DAY, local % DAY;
    assert local == d * DAY + r;
    assert d * DAY == (d * DAY_SECONDS) * 1000;
    assert (r + (d * DAY_SECONDS) * 1000) % 1000 == r % 1000;
  }

  /** The loop of `utcAtZonedMidnight`: correct the candidate by how far its local clock is off. */
  function Iterate(zone: int -> int, expected: int, candidate: int, attempts: nat): Option<int>
    decreases attempts
  {
    if attempts == 0 then None
    else
      var adjustment := expected - Epoch(PartsAt(zone, candidate));
      if adjustment == 0 then Some(candidate) else Iterate(zone, expected, candidate + adjustment, attempts - 1)
  }

  lemma FoundDateIsAsked(zone: int -> int, c: Civil, t: int)
    requires ValidCivil(c) && Epoch(PartsAt(zone, t)) == Days(c) * DAY
    ensures Days(PartsAt(zone, t).date) == Days(c) && PartsAt(zone, t).second == 0
  {
  }

  /** Dates with one day number are one date. */
  lemma {:induction false} DaysIdentify(a: Civil, b: Civil)
    requires ValidCivil(a) && ValidCivil(b) && Days(a) == Days(b)
    ensures a == b
  {
    if a.year < b.year { YearsOrder(a, b); }
    if b.year < a.year { YearsOrder(b, a); }
    if a.year == b.year {
      if a.month < b.month { MonthsOrder(a.year, a.month, b.month); }
      if b.month < a.month { MonthsOrder(a.year, b.month, a.month); }
    }
  }

  lemma {:induction false} MonthsOrder(y: int, m: int, n: int)
    requires 1 <= m < n <= 12
    ensures MonthStart(y, m) + MonthLength(y, m) <= MonthStart(y, n)
    decreases n
  {
    if m < n - 1 { MonthsOrder(y, m, n - 1); }
  }

  lemma {:induction false} YearStartsOrder(y: int, z: int)
    requires y <= z
    ensures YearStart(y) <= YearStart(z)
    decreases z - y
  {
    if y < z {
      YearStartsOrder(y + 1, z);
      YearsAdvance(y);
      YearLength(y);
    }
  }

  lemma YearsOrder(a: Civil, b: Civil)
    requires ValidCivil(a) && ValidCivil(b) && a.year < b.year
    ensures Days(a) < Days(b)
  {
    YearsAdvance(a.year);
    if a.month < 12 { MonthsOrder(a.year, a.month, 12); }
    YearStartsOrder(a.year + 1, b.year);
    if b.month > 1 { MonthsOrder(b.year, 1, b.month); }
  }

  /** The fixed-point loop; a found instant is checked field by field before it is returned. */
  method ZonedMidnight(zone: int -> int, c: Civil) returns (r: Option<int>)
    requires ValidCivil(c)
    ensures r == Iterate(zone, Days(c) * DAY, Days(c) * DAY, ATTEMPTS)
  {
    hide Days, CivilOf, PartsAt, Epoch;
    var expected := Days(c) * DAY;
    var candidate, attempt := expected, 0;
    while attempt < ATTEMPTS
      invariant 0 <= attempt <= ATTEMPTS
      invariant Iterate(zone, expected, expected, ATTEMPTS) == Iterate(zone, expected, candidate, ATTEMPTS - attempt)
    {
      var actual := PartsAt(zone, candidate);
      var adjustment := expected - Epoch(actual);
      if adjustment == 0 {
        FoundDateIsAsked(zone, c, candidate);
        DaysIdentify(actual.date, c);
        if actual.date != c || actual.second != 0 { break; }
        return Some(candidate);
      }
      candidate := candidate + adjustment;
      attempt := attempt + 1;
    }
    return None;
  }

  /** Whatever the zone does, a found instant is an exact local midnight of the asked date. */
  lemma {:induction false} FoundIsMidnight(zone: int -> int, expected: int, candidate: int, attempts: nat)
    requires expected % 1000 == 0 && candidate % 1000 == 0
    ensures var r := Iterate(zone, expected, candidate, attempts); r.Some? ==> Local(zone, r.value) == expected && r.value % 1000 == 0
    decreases attempts
  {
    hide PartsAt, Epoch, Days, CivilOf;
    if attempts > 0 {
      EpochIsLocal(zone, candidate);
      WholeSeconds(candidate, zone(candidate));
      var adjustment := expected - Epoch(PartsAt(zone, candidate));
      if adjustment != 0 { FoundIsMidnight(zone, expected, candidate + adjustment, attempts - 1); }
    }
  }

  lemma WholeSeconds(t: int, offset: int)
    requires t % 1000 == 0
    ensures (t + offset * 1000) % 1000 == 0
  {
  }

  /** For a constant offset the loop needs at most two attempts. */
  lemma ConstantOffsetSucceeds(offset: int, expected: int)
    requires expected % 1000 == 0
    ensures Iterate(_ => offset, expected, expected, 2) == Some(expected - offset * 1000)
    ensures Iterate(_ => offset, expected, expected, ATTEMPTS) == Some(expected - offset * 1000)
  {
    hide PartsAt, Epoch, Days, CivilOf;
    var zone := (_: int) => offset;
    EpochIsLocal(zone, expected);
    WholeSeconds(expected, offset);
    EpochIsLocal(zone, expected - offset * 1000);
  }

  // ---------- the month range ----------

  datatype Range = Range(start: int, end: int)

  function MonthAfter(c: Civil): Civil { if c.month == 12 then Civil(c.year + 1, 1, 1) else Civil(c.year, c.month + 1, 1) }

  function Midnight(zone: int -> int, c: Civil): Option<int>
    requires ValidCivil(c)
  {
    Iterate(zone, Days(c) * DAY, Days(c) * DAY, ATTEMPTS)
  }

  /** The month of `now`, or None when one of its midnights cannot be found. */
  method CanonicalRange(zone: int -> int, now: int) returns (r: Option<Range>)
    ensures r == RangeOf(zone, now)
  {
    hide Days, CivilOf, PartsAt, Iterate, MonthLength;
    var current := PartsAt(zone, now).date;
    FirstsAreValid(current);
    var start := ZonedMidnight(zone, Civil(current.year, current.month, 1));
    if start.None? { return None; }
    var end := ZonedMidnight(zone, MonthAfter(current));
    if end.None? { return None; }
    return Some(Range(start.value, end.value));
  }

  lemma FirstsAreValid(c: Civil)
    requires ValidCivil(c)
    ensures ValidCivil(Civil(c.year, c.month, 1)) && ValidCivil(MonthAfter(c))
  {
  }

  function RangeOf(zone: int -> int, now: int): Option<Range> {
    var current := PartsAt(zone, now).date;
    FirstsAreValid(current);
    var start := Midnight(zone, Civil(current.year, current.month, 1));
    var end := Midnight(zone, MonthAfter(current));
    if start.None? || end.None? then None else Some(Range(start.value, end.value))
  }

  /** `calendarDaysBetween`. */
  function DaysBetween(zone: int -> int, start: int, end: int): int {
    Days(PartsAt(zone, end).date) - Days(PartsAt(zone, start).date)
  }

  /** The range test of the saved-view compiler. */
  predicate RangeAccepted(zone: int -> int, r: Range) {
    r.start < r.end && 1 <= DaysBetween(zone, r.start, r.end) <= 31
  }

  lemma MonthsAdvance(c: Civil)
    requires 1 <= c.month <= 12
    ensures Days(MonthAfter(c)) == Days(Civil(c.year, c.month, 1)) + MonthLength(c.year, c.month)
  {
    YearsAdvance(c.year);
  }

  /**
   Whatever the zone does within a day of UTC, a returned range runs from one exact local midnight to another, one civil
   month apart, and the compiler's range test accepts it.
   */
  lemma RangesAreAccepted(zone: int -> int, now: int)
    requires forall t :: -DAY_SECONDS <= zone(t) <= DAY_SECONDS
    requires RangeOf(zone, now).Some?
    ensures var r := RangeOf(zone, now).value;
            var month := PartsAt(zone, now).date;
            && Local(zone, r.start) == Days(Civil(month.year, month.month, 1)) * DAY
            && Local(zone, r.end) == Days(MonthAfter(month)) * DAY
            && DaysBetween(zone, r.start, r.end) == MonthLength(month.year, month.month)
            && RangeAccepted(zone, r) && 28 <= DaysBetween(zone, r.start, r.end)
  {
    hide CivilOf, Days, Iterate, MonthStart, YearStart;
    var r := RangeOf(zone, now).value;
    var month := PartsAt(zone, now).date;
    FirstsAreValid(month);
    var first, next := Days(Civil(month.year, month.month, 1)), Days(MonthAfter(month));
    WholeDays(first);
    WholeDays(next);
    FoundIsMidnight(zone, first * DAY, first * DAY, ATTEMPTS);
    FoundIsMidnight(zone, next * DAY, next * DAY, ATTEMPTS);
    MonthsAdvance(month);
    assert Days(PartsAt(zone, r.start).date) == Local(zone, r.start) / DAY == first;
    assert Days(PartsAt(zone, r.end).date) == Local(zone, r.end) / DAY == next;
    assert r.start == first * DAY - zone(r.start) * 1000;
    assert r.end == next * DAY - zone(r.end) * 1000;
  }

  lemma WholeDays(n: int)
    ensures (n * DAY) % 1000 == 0 && (n * DAY) / DAY == n
  {
    assert n * DAY == (n * DAY_SECONDS) * 1000;
  }

  /** A constant offset always yields the range. */
  lemma ConstantOffsetHasARange(offset: int, now: int)
    ensures RangeOf(_ => offset, now).Some?
  {
    var zone := (_: int) => offset;
    var month := PartsAt(zone, now).date;
    WholeDays(Days(Civil(month.year, month.month, 1)));
    WholeDays(Days(MonthAfter(month)));
    ConstantOffsetSucceeds(offset, Days(Civil(month.year, month.month, 1)) * DAY);
    ConstantOffsetSucceeds(offset, Days(MonthAfter(month)) * DAY);
  }
}
