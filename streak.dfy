/**
 * The streak walk of `queryProtocolStreak` (app/dashboard/actions.ts).
 * The log rows arrive ordered by `completed_at`, newest first; each row is
 * reduced to its calendar day.
 */
module ProtocolStreak {
  import opened Days

  /**
   * How many more days the walk adds once its cursor is on `cursor` and the
   * rows `rest` are still to be visited: a row one day before the cursor
   * extends the streak and moves the cursor, a row on the cursor's own day is
   * a duplicate and is skipped, any other row ends the walk.
   */
  function Walk(cursor: Day, rest: seq<Day>): (n: nat)
    ensures n <= |rest|
    decreases |rest|
  {
    if rest == [] then 0
    else if cursor - rest[0] == 1 then 1 + Walk(rest[0], rest[1..])
    else if cursor - rest[0] == 0 then Walk(cursor, rest[1..])
    else 0
  }

  /** The streak reported for `logs` (newest first) on day `today`. */
  function Streak(logs: seq<Day>, today: Day): (s: nat)
    ensures s <= |logs|
  {
    if logs == [] then 0
    else if today - logs[0] > 1 then 0
    else 1 + Walk(logs[0], logs[1..])
  }

  /** The for-loop of the source, with `break` and `continue`. */
  method QueryProtocolStreak(logs: seq<Day>, today: Day) returns (streak: nat)
    ensures streak == Streak(logs, today)
    ensures logs == [] ==> streak == 0
    ensures logs != [] && today - logs[0] > 1 ==> streak == 0
    ensures logs != [] && today - logs[0] <= 1 ==> 1 <= streak <= |logs|
  {
    if |logs| == 0 {
      return 0;
    }
    streak := 0;
    var lastDate := today;
    var mostRecent := logs[0];
    var diff := lastDate - mostRecent;
    if diff > 1 {
      return 0;
    }
    for i := 0 to |logs|
      invariant i == 0 ==> streak == 0
      invariant i > 0 ==> streak >= 1 && streak + Walk(lastDate, logs[i..]) == Streak(logs, today)
    {
      var logDate := logs[i];
      if i == 0 {
        streak := 1;
        lastDate := logDate;
        continue;
      }
      var dateDiff := lastDate - logDate;
      if dateDiff == 1 {
        streak := streak + 1;
        lastDate := logDate;
      } else if dateDiff == 0 {
        // a second row for the cursor's day
        continue;
      } else {
        assert Walk(lastDate, logs[i..]) == 0;
        break;
      }
    }
  }

  /** Rows ordered newest first, as the query's `order(..., descending)` delivers them. */
  ghost predicate NewestFirst(logs: seq<Day>) {
    forall i, j :: 0 <= i < j < |logs| ==> logs[j] <= logs[i]
  }

  /**
   * `n` is the length of the longest run of consecutive logged days that ends
   * on day `top`: the `n` days `top - n + 1 .. top` are all logged and the day
   * before them is not.
   */
  ghost predicate RunOf(logs: seq<Day>, top: Day, n: nat) {
    (forall d :: top - n < d <= top ==> d in logs) && top - n !in logs
  }

  /** A run length is determined by the logs and its last day. */
  lemma RunOfUnique(logs: seq<Day>, top: Day, n: nat, m: nat)
    requires RunOf(logs, top, n) && RunOf(logs, top, m)
    ensures n == m
  {
  }

  lemma {:induction false} WalkIsRun(cursor: Day, rest: seq<Day>)
    requires NewestFirst(rest)
    requires forall k :: 0 <= k < |rest| ==> rest[k] <= cursor
    ensures forall d :: cursor - Walk(cursor, rest) <= d < cursor ==> d in rest
    ensures cursor - Walk(cursor, rest) - 1 !in rest
    decreases |rest|
  {
    if rest == [] {
    } else if cursor - rest[0] == 1 {
      var w := Walk(rest[0], rest[1..]);
      WalkIsRun(rest[0], rest[1..]);
      assert Walk(cursor, rest) == 1 + w;
      forall d | cursor - (1 + w) <= d < cursor ensures d in rest {
        if d == cursor - 1 {
          assert d == rest[0];
        } else {
          assert d in rest[1..];
        }
      }
    } else if cursor - rest[0] == 0 {
      WalkIsRun(cursor, rest[1..]);
      var w := Walk(cursor, rest[1..]);
      forall d | cursor - w <= d < cursor ensures d in rest {
        assert d in rest[1..];
      }
      assert rest == [rest[0]] + rest[1..];
    } else {
      forall k | 0 <= k < |rest| ensures rest[k] < cursor - 1 {
        assert rest[k] <= rest[0];
      }
    }
  }

  /**
   * For newest-first logs with a current streak, the streak is exactly the
   * length of the run of distinct consecutive days ending at the newest log.
   */
  lemma StreakIsRunFromNewest(logs: seq<Day>, today: Day)
    requires NewestFirst(logs)
    requires logs != [] && today - logs[0] <= 1
    ensures RunOf(logs, logs[0], Streak(logs, today))
  {
    var w := Walk(logs[0], logs[1..]);
    WalkIsRun(logs[0], logs[1..]);
    forall d | logs[0] - (1 + w) < d <= logs[0] ensures d in logs {
      if d != logs[0] {
        assert d in logs[1..];
      }
    }
    assert logs == [logs[0]] + logs[1..];
  }

  /** `s` with a second copy of its `i`-th row right after it. */
  function DuplicateAt(s: seq<Day>, i: nat): (r: seq<Day>)
    requires i < |s|
    ensures |r| == |s| + 1
  {
    s[..i + 1] + [s[i]] + s[i + 1..]
  }

  lemma {:induction false} WalkIgnoresDuplicate(cursor: Day, rest: seq<Day>, i: nat)
    requires i < |rest|
    ensures Walk(cursor, DuplicateAt(rest, i)) == Walk(cursor, rest)
    decreases i
  {
    var dup := DuplicateAt(rest, i);
    assert dup[0] == rest[0];
    if i == 0 {
      assert dup[1..] == [rest[0]] + rest[1..];
      assert Walk(rest[0], dup[1..]) == Walk(rest[0], rest[1..]);
      if cursor == rest[0] {
        assert Walk(cursor, dup[1..]) == Walk(cursor, rest[1..]);
      }
    } else {
      assert dup[1..] == DuplicateAt(rest[1..], i - 1);
      WalkIgnoresDuplicate(rest[0], rest[1..], i - 1);
      WalkIgnoresDuplicate(cursor, rest[1..], i - 1);
    }
  }

  /** A repeated row for a day never changes the streak, whatever the row order. */
  lemma StreakIgnoresDuplicate(logs: seq<Day>, today: Day, i: nat)
    requires i < |logs|
    ensures Streak(DuplicateAt(logs, i), today) == Streak(logs, today)
  {
    var dup := DuplicateAt(logs, i);
    assert dup[0] == logs[0];
    if i == 0 {
      assert dup[1..] == [logs[0]] + logs[1..];
    } else {
      assert dup[1..] == DuplicateAt(logs[1..], i - 1);
      WalkIgnoresDuplicate(logs[0], logs[1..], i - 1);
    }
  }

  /** The worked example: days 0, -1, -2, -4 on day 0 give a streak of 3. */
  lemma StreakExample()
    ensures Streak([0, -1, -2, -4], 0) == 3
    ensures Streak([0, 0, -1], 0) == Streak([0, -1], 0) == 2
    ensures Streak([-3], 0) == 0
    ensures Streak([-1, -2], 0) == 2
  {
  }
}
