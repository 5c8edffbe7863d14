/** The arithmetic of database.py's gamification table and quiz results.
    A table row is a value whose columns may be NULL; the SQL statements,
    the connection and the clock are not modelled (today's date is a day
    number passed in, and a failing statement is a flag). */
module GamificationStore {
  import opened Wrappers
  import Evaluation
  import Gamification

  /** A row of the `gamification` table; None is NULL. `badges` is the
      decoded JSON list (None also for an empty text), `lastActivity` a day
      number. */
  datatype Row = Row(
    totalPoints: Option<int>,
    level: Option<int>,
    quizzesCompleted: Option<int>,
    streakDays: Option<int>,
    perfectScores: Option<int>,
    badges: Option<seq<string>>,
    lastActivity: Option<int>)

  /** The row `INSERT INTO gamification (user_id)` creates: the column defaults. */
  const FreshRow := Row(Some(0), Some(1), Some(0), Some(0), Some(0), None, None)

  /** Python's `x or d` on a nullable integer column: NULL and 0 give `d`. */
  function OrElse(x: Option<int>, d: int): (r: int)
    ensures x.None? ==> r == d
    ensures x.Some? && x.value != 0 ==> r == x.value
    ensures x.Some? && x.value == 0 ==> r == d
  {
    if x.Some? && x.value != 0 then x.value else d
  }

  /** `percentage` in `save_quiz_result`. */
  function QuizPercentage(score: int, total: int): (p: real)
    ensures total <= 0 ==> p == 0.0
    ensures total > 0 ==> p * (total as real) == (score as real) * 100.0
  {
    if total > 0 then (score as real) / (total as real) * 100.0 else 0.0
  }

  /** The stored percentage agrees with the one the evaluation agent reports, and so
      lies in [0, 100]. */
  lemma QuizPercentageAgrees(score: nat, total: nat)
    requires score <= total
    ensures QuizPercentage(score, total) == Evaluation.Percentage(score, total)
    ensures 0.0 <= QuizPercentage(score, total) <= 100.0
  {
    Evaluation.PercentageRange(score, total);
  }

  /** The dictionary `get_gamification_data` returns. */
  datatype Stats = Stats(
    totalPoints: int,
    level: int,
    quizzesCompleted: int,
    streakDays: int,
    perfectScores: int,
    badges: seq<string>,
    lastActivity: Option<int>)

  const DefaultStats := Stats(0, 1, 0, 0, 0, [], None)

  /** `get_gamification_data`: `read` is the fetched row (None when the user
      has none) or the error the read raised. */
  function GetGamificationData(read: Result<Option<Row>, string>): (s: Stats)
    ensures read.Err? || read.value.None? ==> s == DefaultStats
    ensures read.Ok? && read.value.Some? ==>
              var row := read.value.value;
              (row.totalPoints.None? ==> s.totalPoints == 0)
              && (row.totalPoints.Some? ==> s.totalPoints == row.totalPoints.value)
              && (row.quizzesCompleted.None? ==> s.quizzesCompleted == 0)
              && (row.quizzesCompleted.Some? ==> s.quizzesCompleted == row.quizzesCompleted.value)
              && (row.streakDays.None? ==> s.streakDays == 0)
              && (row.streakDays.Some? ==> s.streakDays == row.streakDays.value)
              && (row.perfectScores.None? ==> s.perfectScores == 0)
              && (row.perfectScores.Some? ==> s.perfectScores == row.perfectScores.value)
              && s.level != 0
              && (row.level.None? || row.level.value == 0 ==> s.level == 1)
              && (row.level.Some? && row.level.value != 0 ==> s.level == row.level.value)
              && (row.badges.None? ==> s.badges == [])
              && (row.badges.Some? ==> s.badges == row.badges.value)
              && s.lastActivity == row.lastActivity
  {
    match read
    case Err(_) => DefaultStats
    case Ok(None) => DefaultStats
    case Ok(Some(row)) =>
      Stats(OrElse(row.totalPoints, 0), OrElse(row.level, 1), OrElse(row.quizzesCompleted, 0),
            OrElse(row.streakDays, 0), OrElse(row.perfectScores, 0),
            if row.badges.Some? then row.badges.value else [], row.lastActivity)
  }

  /** `(total_points // 100) + 1`: one level per hundred points. */
  function LevelForPoints(total: int): (level: int)
    ensures 100 * (level - 1) <= total < 100 * level
    ensures total >= 0 ==> level >= 1
  {
    total / 100 + 1
  }

  /** More points never mean a lower level. */
  lemma LevelMonotone(a: int, b: int)
    requires a <= b
    ensures LevelForPoints(a) <= LevelForPoints(b)
  {
  }

  /** The streak of `update_gamification_data`, by whole days since the last activity. */
  function DayStreak(lastActivity: Option<int>, stored: Option<int>, today: int): (s: int)
    ensures lastActivity.None? ==> s == 1
    ensures lastActivity.Some? && today - lastActivity.value == 1 ==> s == OrElse(stored, 0) + 1
    ensures lastActivity.Some? && today - lastActivity.value == 0 ==> s == OrElse(stored, 1)
    ensures lastActivity.Some? && today - lastActivity.value !in {0, 1} ==> s == 1
  {
    if lastActivity.None? then 1
    else
      var diff := today - lastActivity.value;
      if diff == 1 then OrElse(stored, 0) + 1
      else if diff == 0 then OrElse(stored, 1)
      else 1
  }

  /** With a non-negative stored streak, the new streak is at least one. */
  lemma DayStreakPositive(lastActivity: Option<int>, stored: Option<int>, today: int)
    requires stored.Some? ==> stored.value >= 0
    ensures DayStreak(lastActivity, stored, today) >= 1
  {
  }

  /** The table's streak and the agent's streak agree whenever the stored
      streak is positive: the agent's rule on the same day, counted in seconds
      from midnight, gives the same number. They differ only on a stored 0
      (or NULL) on the same day, which the table turns into 1. */
  lemma {:induction false} StreakRulesAgree(last: int, stored: int, today: int)
    requires stored >= 1
    ensures DayStreak(Some(last), Some(stored), today)
            == Gamification.CalculateStreak(Some(last * Gamification.SecondsPerDay), stored,
                                            today * Gamification.SecondsPerDay)
  {
    var d := today - last;
    assert today * Gamification.SecondsPerDay - last * Gamification.SecondsPerDay == d * Gamification.SecondsPerDay;
    assert (d * Gamification.SecondsPerDay) / Gamification.SecondsPerDay == d;
  }

  /** The badge list after an update: unchanged without new badges,
      otherwise the distinct badges of both lists. */
  lemma BadgeUnion(current: seq<string>, extra: seq<string>)
    ensures var merged := Gamification.AppendAbsent([], current + extra);
            Gamification.NoDuplicates(merged)
            && forall b :: b in merged <==> b in current || b in extra
  {
    Gamification.AppendAbsentProperties([], current + extra);
  }

  /** `update_gamification_data`. `row` is the stored row (None when there
      is none, so a fresh one is inserted first); `fails` says whether a
      statement raised. Returns the outcome and the values written. The
      Python removes duplicates through a set, whose order is not defined;
      this model keeps the first occurrence of each badge. */
  method UpdateGamificationData(row: Option<Row>, pointsEarned: int, isPerfectScore: bool,
                                newBadges: Option<seq<string>>, today: int, fails: bool)
    returns (ok: bool, written: Option<Stats>)
    ensures fails ==> !ok && written.None?
    ensures !fails ==> ok && written.Some?
    ensures !fails ==>
              var r := if row.Some? then row.value else FreshRow;
              var w := written.value;
              var current := if r.badges.Some? then r.badges.value else [];
              w.totalPoints == OrElse(r.totalPoints, 0) + pointsEarned
              && w.quizzesCompleted == OrElse(r.quizzesCompleted, 0) + 1
              && w.perfectScores == OrElse(r.perfectScores, 0) + (if isPerfectScore then 1 else 0)
              && w.level == LevelForPoints(w.totalPoints)
              && w.streakDays == DayStreak(r.lastActivity, r.streakDays, today)
              && w.lastActivity == Some(today)
              && (newBadges.None? || newBadges.value == [] ==> w.badges == current)
              && (newBadges.Some? && newBadges.value != [] ==>
                    Gamification.NoDuplicates(w.badges)
                    && forall b :: b in w.badges <==> b in current || b in newBadges.value)
  {
    if fails {
      return false, None;
    }
    var r := if row.Some? then row.value else FreshRow;
    var totalPoints := OrElse(r.totalPoints, 0) + pointsEarned;
    var quizzesCompleted := OrElse(r.quizzesCompleted, 0) + 1;
    var perfectScores := OrElse(r.perfectScores, 0) + (if isPerfectScore then 1 else 0);
    var level := totalPoints / 100 + 1;

    var streakDays := 1;
    if r.lastActivity.Some? {
      var daysDiff := today - r.lastActivity.value;
      if daysDiff == 1 {
        streakDays := OrElse(r.streakDays, 0) + 1;
      } else if daysDiff == 0 {
        streakDays := OrElse(r.streakDays, 1);
      }
    }

    var currentBadges := if r.badges.Some? then r.badges.value else [];
    if newBadges.Some? && newBadges.value != [] {
      var extended := currentBadges + newBadges.value;
      currentBadges := Gamification.MergeBadges([], extended);
      BadgeUnion(if r.badges.Some? then r.badges.value else [], newBadges.value);
    }
    ok := true;
    written := Some(Stats(totalPoints, level, quizzesCompleted, streakDays, perfectScores, currentBadges, Some(today)));
  }
}
