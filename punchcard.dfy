/**
 * `HabitPunchcard` (components/HabitPunchcard.tsx): one slot per scheduled
 * day from the habit's creation day to today, newest first, each slot
 * punched when that day is in the log set.
 */
module Punchcard {
  import opened Wrappers
  import opened Days
  import opened Seqs

  /** One cell of the card. */
  datatype Slot = Slot(day: Day, punched: bool)

  /** Every day from `lo` to `hi` inclusive, ascending. */
  function Range(lo: Day, hi: Day): (r: seq<Day>)
    ensures |r| == if lo <= hi then hi - lo + 1 else 0
    ensures forall k :: 0 <= k < |r| ==> r[k] == lo + k
    decreases hi - lo
  {
    if lo > hi then [] else [lo] + Range(lo + 1, hi)
  }

  lemma RangeMembership(lo: Day, hi: Day, d: Day)
    ensures d in Range(lo, hi) <==> lo <= d <= hi
  {
    if lo <= d <= hi {
      assert Range(lo, hi)[d - lo] == d;
    }
  }

  lemma RangeSnoc(lo: Day, hi: Day)
    requires lo <= hi + 1
    ensures Range(lo, hi + 1) == Range(lo, hi) + [hi + 1]
  {
  }

  /**
   * The frequency test: with a present, non-empty frequency a day is kept
   * when its short weekday name is listed; otherwise every day is kept.
   */
  predicate Scheduled(frequency: Option<seq<string>>, d: Day) {
    match frequency
    case None => true
    case Some(f) => |f| == 0 || ShortWeekday(d) in f
  }

  function ScheduledOn(frequency: Option<seq<string>>): Day -> bool {
    d => Scheduled(frequency, d)
  }

  /** The days the card shows, in the order the loop visits them. */
  function ScheduledDays(createdDay: Day, today: Day, frequency: Option<seq<string>>): seq<Day> {
    Filter(Range(createdDay, today), ScheduledOn(frequency))
  }

  /** Extending the window by one day appends that day when it is scheduled. */
  lemma ScheduledDaysSnoc(lo: Day, hi: Day, frequency: Option<seq<string>>)
    requires lo <= hi + 1
    ensures ScheduledDays(lo, hi + 1, frequency)
            == ScheduledDays(lo, hi, frequency) + (if Scheduled(frequency, hi + 1) then [hi + 1] else [])
  {
    RangeSnoc(lo, hi);
    FilterConcat(Range(lo, hi), [hi + 1], ScheduledOn(frequency));
    FilterSingleton(hi + 1, ScheduledOn(frequency));
  }

  /** The `while (tempDate <= today)` loop that fills `daysSinceCreation`. */
  method DaysSinceCreation(createdDay: Day, today: Day, frequency: Option<seq<string>>)
    returns (daysSinceCreation: seq<Day>)
    ensures daysSinceCreation == ScheduledDays(createdDay, today, frequency)
  {
    daysSinceCreation := [];
    var tempDate := createdDay;
    while tempDate <= today
      invariant tempDate == createdDay || createdDay < tempDate <= today + 1
      invariant daysSinceCreation == ScheduledDays(createdDay, tempDate - 1, frequency)
      decreases today - tempDate
    {
      ScheduledDaysSnoc(createdDay, tempDate - 1, frequency);
      if frequency.Some? && |frequency.value| > 0 {
        var dayName := ShortWeekday(tempDate);
        if dayName in frequency.value {
          daysSinceCreation := daysSinceCreation + [tempDate];
        }
      } else {
        daysSinceCreation := daysSinceCreation + [tempDate];
      }
      tempDate := tempDate + 1;
    }
  }

  /** A day is on the card exactly when it lies in `createdDay..today` and is scheduled. */
  lemma ScheduledDaysMembership(createdDay: Day, today: Day, frequency: Option<seq<string>>, d: Day)
    ensures d in ScheduledDays(createdDay, today, frequency)
            <==> createdDay <= d <= today && Scheduled(frequency, d)
  {
    var all := Range(createdDay, today);
    RangeMembership(createdDay, today, d);
    if d in all && Scheduled(frequency, d) {
      var k := d - createdDay;
      assert all[k] == d;
    }
  }

  /** The days come out ascending, each at most once. */
  lemma ScheduledDaysAscending(createdDay: Day, today: Day, frequency: Option<seq<string>>)
    ensures StrictlyIncreasing(ScheduledDays(createdDay, today, frequency))
  {
    FilterKeepsIncreasing(Range(createdDay, today), ScheduledOn(frequency));
  }

  /** A creation day after today gives an empty card. */
  lemma FutureCreationIsEmpty(createdDay: Day, today: Day, frequency: Option<seq<string>>)
    requires createdDay > today
    ensures ScheduledDays(createdDay, today, frequency) == []
  {
  }

  /** With no frequency, or an empty one, every day from creation to today has a slot. */
  lemma NoFrequencyKeepsEveryDay(createdDay: Day, today: Day, frequency: Option<seq<string>>)
    requires frequency.None? || frequency.value == []
    ensures ScheduledDays(createdDay, today, frequency) == Range(createdDay, today)
    ensures createdDay <= today ==> |ScheduledDays(createdDay, today, frequency)| == today - createdDay + 1
  {
    FilterKeepsAll(Range(createdDay, today), ScheduledOn(frequency));
  }

  /** A habit created today has at most one slot, and one exactly when today is scheduled. */
  lemma CreatedTodaySlots(today: Day, frequency: Option<seq<string>>)
    ensures ScheduledDays(today, today, frequency) == if Scheduled(frequency, today) then [today] else []
  {
    assert Range(today, today) == [today];
    assert Range(today, today)[1..] == [];
  }

  /** Peeling the creation day off the front of the card's enumeration. */
  lemma ScheduledDaysStep(lo: Day, hi: Day, frequency: Option<seq<string>>)
    requires lo <= hi
    ensures ScheduledDays(lo, hi, frequency)
            == (if Scheduled(frequency, lo) then [lo] else []) + ScheduledDays(lo + 1, hi, frequency)
  {
    assert Range(lo, hi) == [lo] + Range(lo + 1, hi);
    FilterConcat([lo], Range(lo + 1, hi), ScheduledOn(frequency));
    FilterSingleton(lo, ScheduledOn(frequency));
  }

  /** Of the ten days starting on a Monday `m`, only `m` and `m + 7` are Mondays. */
  lemma MondaysOfTenDays(m: Day, d: Day)
    requires ShortWeekday(m) == "Mon"
    requires m <= d <= m + 9
    ensures Scheduled(Some(["Mon"]), d) <==> d == m || d == m + 7
  {
    MondayExactly(m);
    MondayExactly(d);
    var q, k := (m + 3) / 7, d - m;
    assert m + 3 == 7 * q;
    assert d + 3 == 7 * q + k;
    assert (d + 3) % 7 == k % 7;
  }

  /** The Mondays from day `d` to the end of the ten-day window starting on Monday `m`. */
  lemma {:induction false} MondaysFrom(m: Day, d: Day)
    requires ShortWeekday(m) == "Mon"
    requires m <= d <= m + 10
    ensures ScheduledDays(d, m + 9, Some(["Mon"]))
            == (if d <= m then [m] else []) + (if d <= m + 7 then [m + 7] else [])
    decreases m + 10 - d
  {
    var f := Some(["Mon"]);
    if d <= m + 9 {
      ScheduledDaysStep(d, m + 9, f);
      MondaysOfTenDays(m, d);
      MondaysFrom(m, d + 1);
    } else {
      FutureCreationIsEmpty(d, m + 9, f);
    }
  }

  /** A ten-day window starting on a Monday holds exactly two Mondays. */
  lemma MondaysInTenDays(m: Day)
    requires ShortWeekday(m) == "Mon"
    ensures ScheduledDays(m, m + 9, Some(["Mon"])) == [m, m + 7]
  {
    MondaysFrom(m, m);
  }

  /** `logSet.has(dateStr)` for each day of the list, in the list's order. */
  function MarkSlots(days: seq<Day>, logSet: set<Day>): (slots: seq<Slot>)
    ensures |slots| == |days|
    ensures forall k :: 0 <= k < |days| ==> slots[k] == Slot(days[k], days[k] in logSet)
  {
    seq(|days|, k requires 0 <= k < |days| => Slot(days[k], days[k] in logSet))
  }

  /** The card: the enumeration reversed (newest first), each slot marked. */
  method HabitPunchcard(createdDay: Day, today: Day, logs: seq<Day>, frequency: Option<seq<string>>)
    returns (slots: seq<Slot>)
    ensures var days := ScheduledDays(createdDay, today, frequency);
            && |slots| == |days|
            && forall k :: 0 <= k < |slots| ==> slots[k].day == days[|days| - 1 - k]
    ensures forall k :: 0 <= k < |slots| ==> (slots[k].punched <==> slots[k].day in logs)
    ensures forall i, j :: 0 <= i < j < |slots| ==> slots[i].day > slots[j].day
  {
    var daysSinceCreation := DaysSinceCreation(createdDay, today, frequency);
    var logSet := set l | l in logs;
    var newestFirst := Reverse(daysSinceCreation);
    ScheduledDaysAscending(createdDay, today, frequency);
    ReverseOfIncreasing(daysSinceCreation);
    slots := MarkSlots(newestFirst, logSet);
  }
}
