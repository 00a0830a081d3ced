/**
 * The arithmetic of `checkProtocolEligibility` (app/dashboard/actions.ts):
 * whether the user may create another habit, judged on the most recently
 * created one. The two database reads become inputs: the latest habit (or
 * none) and the number of log rows it has.
 */
module ProtocolEligibility {
  import opened Wrappers
  import opened Days

  const RequiredCompletions: nat := 10
  const RequiredDedication: nat := 90

  /** The fields of the latest habit that the evaluation reads. */
  datatype LatestHabit = LatestHabit(title: string, createdDay: Day)

  datatype Stats = Stats(
    completions: nat,
    dedication: int,
    totalDays: int,
    requiredCompletions: nat,
    requiredDedication: nat)

  /** `{ eligible, stats?, latestHabitTitle? }` as the action returns it. */
  datatype Eligibility = Eligibility(eligible: bool, stats: Option<Stats>, latestHabitTitle: Option<string>)

  function Abs(x: int): nat {
    if x < 0 then -x else x
  }

  /** `ceil(|today - created| in days) + 1`: the creation day counts as day one. */
  function TotalDays(createdDay: Day, today: Day): (n: int)
    ensures n >= 1
    ensures n == 1 <==> createdDay == today
    ensures createdDay <= today ==> n == today - createdDay + 1
    ensures today < createdDay ==> n == createdDay - today + 1
  {
    Abs(today - createdDay) + 1
  }

  /** `(completionCount / diffDays) * 100`, or 0 when `diffDays` is not positive. */
  function DedicationRate(completions: nat, totalDays: int): real {
    if totalDays > 0 then (completions as real / totalDays as real) * 100.0 else 0.0
  }

  /** `Math.round`: the nearest integer, halves rounded up. */
  function Round(x: real): (r: int)
    ensures x - 0.5 < r as real <= x + 0.5
  {
    (x + 0.5).Floor
  }

  /** The rate reaches a percentage threshold exactly when the integer cross-multiplication does. */
  lemma RateAtLeast(completions: nat, totalDays: int, percent: nat)
    requires totalDays > 0
    ensures DedicationRate(completions, totalDays) >= percent as real
            <==> 100 * completions >= percent * totalDays
  {
    var c, t := completions as real, totalDays as real;
    assert (c / t) * 100.0 * t == 100.0 * c;
    assert (100 * completions) as real == 100.0 * c;
    assert (percent * totalDays) as real == percent as real * t;
  }

  /**
   * The displayed dedication is the rate rounded to the nearest integer:
   * `dedication - 1/2 < 100 * completions / totalDays <= dedication + 1/2`,
   * stated without fractions.
   */
  lemma RoundedRate(completions: nat, totalDays: int)
    requires totalDays > 0
    ensures var r := Round(DedicationRate(completions, totalDays));
            2 * totalDays * r - totalDays <= 200 * completions < 2 * totalDays * r + totalDays
  {
    var x := DedicationRate(completions, totalDays);
    var r := Round(x);
    var t := totalDays as real;
    RateTimesDays(completions, totalDays);
    MulMonotonic(r as real - 0.5, x, t);
    MulMonotonic(x, r as real + 0.5, t);
    HalfBoundsScaled(completions, totalDays, r, x * t);
  }

  /** Clearing the fractions of `(r - 1/2) t <= 100 c < (r + 1/2) t`. */
  lemma HalfBoundsScaled(completions: nat, totalDays: int, r: int, y: real)
    requires y == 100.0 * completions as real
    requires (r as real - 0.5) * totalDays as real <= y < (r as real + 0.5) * totalDays as real
    ensures 2 * totalDays * r - totalDays <= 200 * completions < 2 * totalDays * r + totalDays
  {
    var t := totalDays as real;
    assert (r as real - 0.5) * t == (r * totalDays) as real - 0.5 * t;
    assert (r as real + 0.5) * t == (r * totalDays) as real + 0.5 * t;
  }

  lemma RateTimesDays(completions: nat, totalDays: int)
    requires totalDays > 0
    ensures DedicationRate(completions, totalDays) * totalDays as real == 100.0 * completions as real
  {
  }

  lemma MulMonotonic(a: real, b: real, t: real)
    requires t > 0.0
    ensures a < b ==> a * t < b * t
    ensures a <= b ==> a * t <= b * t
  {
  }

  function CheckProtocolEligibility(latest: Option<LatestHabit>, completionCount: nat, today: Day): (e: Eligibility)
    // no habit yet: the first one is always allowed
    ensures latest.None? ==> e == Eligibility(true, None, None)
    ensures latest.Some? ==>
      && e.stats.Some?
      && e.latestHabitTitle == Some(latest.value.title)
      && e.stats.value.completions == completionCount
      && e.stats.value.totalDays == TotalDays(latest.value.createdDay, today)
      && e.stats.value.requiredCompletions == 10
      && e.stats.value.requiredDedication == 90
    // the rule, on the unrounded rate
    ensures latest.Some? ==>
      (e.eligible <==> completionCount >= 10 && 100 * completionCount >= 90 * e.stats.value.totalDays)
    // the displayed dedication is the rate rounded to the nearest integer
    ensures latest.Some? ==>
      var t, r := e.stats.value.totalDays, e.stats.value.dedication;
      2 * t * r - t <= 200 * completionCount < 2 * t * r + t
  {
    match latest
    case None => Eligibility(true, None, None)
    case Some(habit) =>
      var diffDays := TotalDays(habit.createdDay, today);
      var dedicationRate := DedicationRate(completionCount, diffDays);
      var eligible := completionCount >= RequiredCompletions && dedicationRate >= RequiredDedication as real;
      RateAtLeast(completionCount, diffDays, RequiredDedication);
      RoundedRate(completionCount, diffDays);
      Eligibility(
        eligible,
        Some(Stats(completionCount, Round(dedicationRate), diffDays, RequiredCompletions, RequiredDedication)),
        Some(habit.title))
  }

  /** A habit created today with one completion: 100% dedication, but too few completions. */
  lemma CreatedTodayOneCompletion(title: string, today: Day)
    ensures var e := CheckProtocolEligibility(Some(LatestHabit(title, today)), 1, today);
            !e.eligible && e.stats.value.totalDays == 1 && e.stats.value.dedication == 100
  {
    var e := CheckProtocolEligibility(Some(LatestHabit(title, today)), 1, today);
    assert e.stats.value.totalDays == 1;
  }

  /** The boundaries: 18 of 20 days is exactly 90% and passes; 9 of 10 days is 90% but too few. */
  lemma EligibilityBoundaries(title: string, today: Day)
    ensures CheckProtocolEligibility(Some(LatestHabit(title, today - 19)), 18, today).eligible
    ensures !CheckProtocolEligibility(Some(LatestHabit(title, today - 19)), 17, today).eligible
    ensures !CheckProtocolEligibility(Some(LatestHabit(title, today - 9)), 9, today).eligible
  {
    assert TotalDays(today - 19, today) == 20;
    assert TotalDays(today - 9, today) == 10;
  }

  /**
   * Eligibility is decided on the unrounded rate: 179 completions over 200
   * days display as 90% dedication (89.5 rounds up), yet are not eligible.
   */
  lemma DisplayedNinetyIsNotEnough(title: string, today: Day)
    ensures var e := CheckProtocolEligibility(Some(LatestHabit(title, today - 199)), 179, today);
            e.stats.value.dedication == 90 && !e.eligible
  {
    var e := CheckProtocolEligibility(Some(LatestHabit(title, today - 199)), 179, today);
    assert e.stats.value.totalDays == 200;
    var r := e.stats.value.dedication;
    assert 400 * r - 200 <= 35800 < 400 * r + 200;
  }

  /** A habit created `k` days in the future (clock skew) is measured by the absolute distance. */
  lemma FutureCreationCountsDistance(title: string, today: Day, k: nat, completionCount: nat)
    ensures CheckProtocolEligibility(Some(LatestHabit(title, today + k)), completionCount, today).stats.value.totalDays == k + 1
  {
  }
}
