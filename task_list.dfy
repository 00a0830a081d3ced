/**
 * The derivations of `HabitTaskList` (components/HabitTaskList/HabitTaskList.tsx):
 * the optimistic completed-id list, the habits due today, their order
 * (uncompleted first) and the eligibility override.
 */
module HabitTaskList {
  import opened Wrappers
  import opened Days
  import opened Seqs
  import ProtocolEligibility

  datatype Habit = Habit(id: string, title: string, frequency: Option<seq<string>>)

  /**
   * The `useOptimistic` reducer: unchecking a completed habit removes its id,
   * checking it appends the id.
   */
  function ApplyOptimistic(state: seq<string>, habitId: string, isCompleted: bool): (r: seq<string>)
    ensures isCompleted ==> habitId !in r && forall id :: id != habitId ==> (id in r <==> id in state)
    ensures !isCompleted ==> r == state + [habitId]
  {
    if isCompleted then Filter(state, Except(habitId)) else state + [habitId]
  }

  /** Unchecking drops every occurrence of the id and keeps every other id, in order. */
  lemma UncheckKeepsOthersInOrder(state: seq<string>, habitId: string)
    ensures IsSubsequence(ApplyOptimistic(state, habitId, true), state)
    ensures forall id :: multiset(ApplyOptimistic(state, habitId, true))[id]
                         == if id == habitId then 0 else multiset(state)[id]
  {
    FilterIsSubsequence(state, Except(habitId));
    forall id {
      RemoveAllCount(state, habitId, id);
    }
  }

  lemma {:induction false} RemoveAllCount(s: seq<string>, habitId: string, id: string)
    ensures multiset(Filter(s, Except(habitId)))[id] == if id == habitId then 0 else multiset(s)[id]
  {
    if s != [] {
      RemoveAllCount(s[1..], habitId, id);
      var head: seq<string> := if s[0] != habitId then [s[0]] else [];
      assert Filter(s, Except(habitId)) == head + Filter(s[1..], Except(habitId));
      assert s == [s[0]] + s[1..];
      assert multiset(s)[id] == multiset([s[0]])[id] + multiset(s[1..])[id];
    }
  }

  /** Checking a habit that was not completed and then unchecking it restores the list. */
  lemma CheckThenUncheck(state: seq<string>, habitId: string)
    requires habitId !in state
    ensures ApplyOptimistic(ApplyOptimistic(state, habitId, false), habitId, true) == state
  {
    FilterConcat(state, [habitId], Except(habitId));
    FilterKeepsAll(state, Except(habitId));
    FilterSingleton(habitId, Except(habitId));
  }

  /** A habit is listed today when it has no frequency, an empty one, or today's short weekday. */
  predicate ShownToday(h: Habit, todayName: string) {
    h.frequency.None? || |h.frequency.value| == 0 || todayName in h.frequency.value
  }

  function ShownOn(todayName: string): Habit -> bool {
    h => ShownToday(h, todayName)
  }

  /** `habits.filter(...)` on today's weekday name. */
  function HabitsForToday(habits: seq<Habit>, todayName: string): (r: seq<Habit>)
    ensures forall i :: 0 <= i < |r| ==> r[i] in habits && ShownToday(r[i], todayName)
    ensures forall i :: 0 <= i < |habits| && ShownToday(habits[i], todayName) ==> habits[i] in r
    ensures IsSubsequence(r, habits)
  {
    FilterIsSubsequence(habits, ShownOn(todayName));
    Filter(habits, ShownOn(todayName))
  }

  function Done(completed: set<string>): Habit -> bool {
    (h: Habit) => h.id in completed
  }

  function Pending(completed: set<string>): Habit -> bool {
    (h: Habit) => h.id !in completed
  }

  /**
   * `sortHabits`: a stable sort whose comparator only tells completed from
   * uncompleted habits, i.e. the uncompleted habits in their order followed
   * by the completed ones in theirs.
   */
  function SortHabits(habits: seq<Habit>, completed: set<string>): (r: seq<Habit>)
    ensures |r| == |habits|
    ensures multiset(r) == multiset(habits)
    ensures forall i, j :: 0 <= i < j < |r| && r[i].id in completed ==> r[j].id in completed
  {
    var pending, done := Filter(habits, Pending(completed)), Filter(habits, Done(completed));
    FilterPartition(habits, Pending(completed), Done(completed));
    PendingThenDone(pending, done, completed);
    assert multiset(pending + done) == multiset(habits);
    assert |pending + done| == |multiset(pending + done)| == |multiset(habits)| == |habits|;
    pending + done
  }

  lemma PendingThenDone(pending: seq<Habit>, done: seq<Habit>, completed: set<string>)
    requires forall i :: 0 <= i < |pending| ==> Pending(completed)(pending[i])
    requires forall i :: 0 <= i < |done| ==> Done(completed)(done[i])
    ensures var r := pending + done;
            forall i, j :: 0 <= i < j < |r| && r[i].id in completed ==> r[j].id in completed
  {
    var r := pending + done;
    forall i, j | 0 <= i < j < |r| && r[i].id in completed ensures r[j].id in completed {
      if i < |pending| {
        assert false;
      }
      assert r[j] == done[j - |pending|];
      assert Done(completed)(done[j - |pending|]);
    }
  }

  /** Within each group the original order is kept. */
  lemma SortHabitsIsStable(habits: seq<Habit>, completed: set<string>)
    ensures Filter(SortHabits(habits, completed), Pending(completed)) == Filter(habits, Pending(completed))
    ensures Filter(SortHabits(habits, completed), Done(completed)) == Filter(habits, Done(completed))
  {
    var pending, done := Filter(habits, Pending(completed)), Filter(habits, Done(completed));
    FilterConcat(pending, done, Pending(completed));
    FilterConcat(pending, done, Done(completed));
    FilterKeepsAll(pending, Pending(completed));
    FilterDropsAll(done, Pending(completed));
    FilterKeepsAll(done, Done(completed));
    FilterDropsAll(pending, Done(completed));
  }

  /** The list rendered on day `today`: today's habits, uncompleted first. */
  function SortedHabits(habits: seq<Habit>, completedIds: seq<string>, today: Day): (r: seq<Habit>)
    ensures forall h :: h in r <==> h in habits && ShownToday(h, ShortWeekday(today))
    ensures multiset(r) == multiset(HabitsForToday(habits, ShortWeekday(today)))
    ensures forall i, j :: 0 <= i < j < |r| && r[i].id in completedIds ==> r[j].id in completedIds
  {
    var shown := HabitsForToday(habits, ShortWeekday(today));
    var completed := set id | id in completedIds;
    var r := SortHabits(shown, completed);
    assert forall h :: h in r <==> h in multiset(shown);
    assert forall i :: 0 <= i < |r| ==> (r[i].id in completed <==> r[i].id in completedIds);
    r
  }

  /**
   * `eligibility.eligible || devOverride`. The override button is commented
   * out, so `devOverride` keeps its initial `false` and, by the second
   * ensures, the creation link follows the evaluated eligibility.
   */
  function IsEligible(eligibility: ProtocolEligibility.Eligibility, devOverride: bool): (r: bool)
    ensures devOverride ==> r
    ensures !devOverride ==> r == eligibility.eligible
  {
    eligibility.eligible || devOverride
  }

  /**
   * From the source's test of `sortHabits`: when only the first habit is
   * completed it moves to the end and the others keep their order.
   */
  lemma SortHabitsOneCompleted(first: Habit, rest: seq<Habit>, completed: set<string>)
    requires first.id in completed
    requires forall i :: 0 <= i < |rest| ==> rest[i].id !in completed
    ensures SortHabits([first] + rest, completed) == rest + [first]
  {
    var p, d := Pending(completed), Done(completed);
    FilterConcat([first], rest, p);
    FilterConcat([first], rest, d);
    FilterSingleton(first, p);
    FilterSingleton(first, d);
    FilterKeepsAll(rest, p);
    FilterDropsAll(rest, d);
    assert Filter([first] + rest, p) == rest;
    assert Filter([first] + rest, d) == [first];
    assert SortHabits([first] + rest, completed) == Filter([first] + rest, p) + Filter([first] + rest, d);
  }

  /** From the source's test: with no habit completed, the order is kept. */
  lemma SortHabitsNoneCompleted(habits: seq<Habit>)
    ensures SortHabits(habits, {}) == habits
  {
    FilterKeepsAll(habits, Pending({}));
    FilterDropsAll(habits, Done({}));
  }

  /** From the source's test: with every habit completed, the order is kept. */
  lemma SortHabitsAllCompleted(habits: seq<Habit>, completed: set<string>)
    requires forall i :: 0 <= i < |habits| ==> habits[i].id in completed
    ensures SortHabits(habits, completed) == habits
  {
    FilterKeepsAll(habits, Done(completed));
    FilterDropsAll(habits, Pending(completed));
  }
}
