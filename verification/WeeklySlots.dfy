/** Weekly report slots under a fixed UTC offset.  Instants and offsets are milliseconds; weekday 1 is Monday, 7 is Sunday. */
module WeeklySlots {
  const DAY := 86_400_000
  const WEEK := 604_800_000

  /** Whole days since 1970-01-01, which was a Thursday. */
  function DayIndex(local: int): int { local / DAY }
  function IsoWeekday(local: int): int { (DayIndex(local) + 3) % 7 + 1 }
  function TimeOfDay(local: int): int { local - DayIndex(local) * DAY }

  /** An instant at the asked weekday and local time. */
  predicate IsSlot(t: int, weekday: int, time: int, offset: int) {
    IsoWeekday(t + offset) == weekday && TimeOfDay(t + offset) == time
  }

  /** The first slot of a new schedule: this week's, or next week's when it is not in the future. */
  function NextWeekly(now: int, weekday: int, time: int, offset: int): int {
    var local := now + offset;
    var candidate := DayIndex(local) * DAY + ((weekday - IsoWeekday(local) + 7) % 7) * DAY + time - offset;
    if candidate <= now then candidate + WEEK else candidate
  }

  /** The slot after a slot: seven days later on the local clock. */
  function NextAfter(slot: int, offset: int): (r: int)
    ensures r == slot + WEEK
  {
    (slot + offset + WEEK) - offset
  }

  predicate ValidSlot(weekday: int, time: int) { 1 <= weekday <= 7 && 0 <= time < DAY }

  lemma SameDay(day: int, time: int)
    requires 0 <= time < DAY
    ensures DayIndex(day * DAY + time) == day && TimeOfDay(day * DAY + time) == time
  {
  }

  lemma SlotDay(t: int, weekday: int, time: int, offset: int)
    requires IsSlot(t, weekday, time, offset)
    ensures t + offset == DayIndex(t + offset) * DAY + time && (DayIndex(t + offset) + 3) % 7 + 1 == weekday
  {
  }

  /** Slots are whole weeks apart. */
  lemma SlotsAreWeeksApart(a: int, b: int, weekday: int, time: int, offset: int)
    requires IsSlot(a, weekday, time, offset) && IsSlot(b, weekday, time, offset)
    ensures (b - a) % WEEK == 0
  {
    var i, j := DayIndex(a + offset), DayIndex(b + offset);
    SlotDay(a, weekday, time, offset);
    SlotDay(b, weekday, time, offset);
    assert (i + 3) % 7 == (j + 3) % 7;
    assert (j - i) % 7 == 0;
    var n := (j - i) / 7;
    assert b - a == n * WEEK;
    MultipleOfWeek(n);
  }

  lemma MultipleOfWeek(n: int)
    ensures (n * WEEK) % WEEK == 0
  {
  }

  /** The first slot is a slot, strictly in the future, and within a week. */
  lemma FirstSlotIsASlot(now: int, weekday: int, time: int, offset: int)
    requires ValidSlot(weekday, time)
    ensures var r := NextWeekly(now, weekday, time, offset);
            IsSlot(r, weekday, time, offset) && now < r <= now + WEEK
  {
    hide IsoWeekday, DayIndex, TimeOfDay;
    var local := now + offset;
    var ahead := (weekday - IsoWeekday(local) + 7) % 7;
    var day := DayIndex(local) + ahead;
    AheadIsTheWeekday(local, weekday);
    SlotOnDay(day, weekday, time, offset);
    SlotOnDay(day + 7, weekday, time, offset);
    DayBounds(local);
  }

  /** Counting on from today reaches the asked weekday within six days. */
  lemma AheadIsTheWeekday(local: int, weekday: int)
    requires 1 <= weekday <= 7
    ensures var ahead := (weekday - IsoWeekday(local) + 7) % 7;
            0 <= ahead <= 6 && (DayIndex(local) + ahead + 3) % 7 + 1 == weekday
  {
  }

  lemma DayBounds(local: int)
    ensures DayIndex(local) * DAY <= local < DayIndex(local) * DAY + DAY
  {
  }

  lemma SlotOnDay(day: int, weekday: int, time: int, offset: int)
    requires 0 <= time < DAY && (day + 3) % 7 + 1 == weekday
    ensures IsSlot(day * DAY + time - offset, weekday, time, offset)
  {
    SameDay(day, time);
  }

  /** And it is the least such instant. */
  lemma FirstSlotIsLeast(now: int, weekday: int, time: int, offset: int, t: int)
    requires ValidSlot(weekday, time) && IsSlot(t, weekday, time, offset) && now < t
    ensures NextWeekly(now, weekday, time, offset) <= t
  {
    var r := NextWeekly(now, weekday, time, offset);
    FirstSlotIsASlot(now, weekday, time, offset);
    if t < r {
      SlotsAreWeeksApart(t, r, weekday, time, offset);
    }
  }

  /** The following slot is the least slot after a slot. */
  lemma NextSlotIsLeast(slot: int, weekday: int, time: int, offset: int, t: int)
    requires ValidSlot(weekday, time) && IsSlot(slot, weekday, time, offset)
    ensures IsSlot(NextAfter(slot, offset), weekday, time, offset)
    ensures slot < t && IsSlot(t, weekday, time, offset) ==> NextAfter(slot, offset) <= t
  {
    SlotDay(slot, weekday, time, offset);
    var day := DayIndex(slot + offset);
    SameDay(day + 7, time);
    assert NextAfter(slot, offset) + offset == (day + 7) * DAY + time;
    assert (day + 7 + 3) % 7 + 1 == weekday;
    if slot < t && IsSlot(t, weekday, time, offset) && t < NextAfter(slot, offset) {
      SlotsAreWeeksApart(slot, t, weekday, time, offset);
    }
  }

  /** How many slots are due at `now`, one pass each: catching up takes finitely many passes. */
  function Backlog(slot: int, now: int): (n: nat)
    ensures n == 0 <==> slot > now
    ensures slot <= now ==> Backlog(slot + WEEK, now) == n - 1
    decreases now - slot
  {
    if slot > now then 0 else Backlog(slot + WEEK, now) + 1
  }
}
