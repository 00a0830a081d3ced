/**
 * Calendar days as integers. Day 0 is 1970-01-01, a Thursday, so the short
 * English weekday name of day `d` (what `toLocaleDateString('en-US',
 * { weekday: 'short' })` yields) is `ShortNames[(d + 3) % 7]`.
 */
module Days {
  type Day = int

  /** Short weekday names, Monday first, as the habit's frequency list stores them. */
  const ShortNames: seq<string> := ["Mon", "Tue", "Wed", "Thu", "Fri", "Sat", "Sun"]

  function ShortWeekday(d: Day): (name: string)
    ensures name in ShortNames
  {
    ShortNames[(d + 3) % 7]
  }

  lemma ShortWeekdayPeriodic(d: Day)
    ensures ShortWeekday(d + 7) == ShortWeekday(d)
    ensures ShortWeekday(d) != ShortWeekday(d + 1)
  {
  }

  /** The Mondays are exactly the days `d` with `(d + 3) % 7 == 0`. */
  lemma MondayExactly(d: Day)
    ensures ShortWeekday(d) == "Mon" <==> (d + 3) % 7 == 0
  {
    var k := (d + 3) % 7;
    if k != 0 {
      assert ShortNames[k][0] != 'M';
    }
  }

  /** 1970-01-05 (day 4) was a Monday. */
  lemma EpochWeekdays()
    ensures ShortWeekday(0) == "Thu" && ShortWeekday(4) == "Mon"
  {
  }
}
