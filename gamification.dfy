/** The point, level, streak and badge update of
    agents/gamification_agent.py. The stored record is fetched from and saved
    to the MCP service; both calls are inputs here (the fetched record or the
    error it raised, and whether the save raised). Badge criteria are strings
    the agent evaluates with `eval`; they are an abstract predicate `met`. */
module Gamification {
  import opened Wrappers
  import opened Models
  import Config

  const SecondsPerDay := 86400

  /** `(now - last).days`: whole days elapsed, rounded down as Python's
      `timedelta.days` does (also for a negative difference). */
  function DaysBetween(last: int, now: int): int {
    (now - last) / SecondsPerDay
  }

  /** `_calculate_streak`. Times are seconds. */
  function CalculateStreak(lastQuizDate: Option<int>, streakDays: int, now: int): (s: int)
    ensures lastQuizDate.None? ==> s == 1
    ensures lastQuizDate.Some? && DaysBetween(lastQuizDate.value, now) == 0 ==> s == streakDays
    ensures lastQuizDate.Some? && DaysBetween(lastQuizDate.value, now) == 1 ==> s == streakDays + 1
    ensures lastQuizDate.Some? && DaysBetween(lastQuizDate.value, now) !in {0, 1} ==> s == 1
  {
    if lastQuizDate.None? then 1
    else
      var days := DaysBetween(lastQuizDate.value, now);
      if days == 0 then streakDays
      else if days == 1 then streakDays + 1
      else 1
  }

  /** A streak that starts at one or more stays at one or more. */
  lemma StreakPositive(lastQuizDate: Option<int>, streakDays: int, now: int)
    requires streakDays >= 1
    ensures CalculateStreak(lastQuizDate, streakDays, now) >= 1
  {
  }

  /** The ids of the configured badges not yet held whose criteria are met, in configuration order. */
  function EarnedBadges(badges: seq<Config.BadgeDef>, held: seq<string>, met: Config.BadgeDef -> bool): seq<string> {
    if badges == [] then []
    else
      var b := badges[|badges| - 1];
      EarnedBadges(badges[..|badges| - 1], held, met) + (if b.id !in held && met(b) then [b.id] else [])
  }

  /** An earned badge is never one already held, is configured, and has its criteria met. */
  lemma {:induction false} EarnedBadgesAreNew(badges: seq<Config.BadgeDef>, held: seq<string>, met: Config.BadgeDef -> bool)
    ensures forall id :: id in EarnedBadges(badges, held, met) ==>
              id !in held && exists i :: 0 <= i < |badges| && badges[i].id == id && met(badges[i])
  {
    if badges != [] {
      var init := badges[..|badges| - 1];
      EarnedBadgesAreNew(init, held, met);
      forall id | id in EarnedBadges(badges, held, met)
        ensures id !in held && exists i :: 0 <= i < |badges| && badges[i].id == id && met(badges[i])
      {
        if id in EarnedBadges(init, held, met) {
          var i :| 0 <= i < |init| && init[i].id == id && met(init[i]);
          assert badges[i] == init[i];
        } else {
          assert badges[|badges| - 1].id == id;
        }
      }
    }
  }

  /** `_check_new_badges`: a badge already held is skipped, the others are
      kept when their criteria are met. */
  method CheckNewBadges(badges: seq<Config.BadgeDef>, held: seq<string>, met: Config.BadgeDef -> bool)
    returns (earned: seq<string>)
    ensures earned == EarnedBadges(badges, held, met)
    ensures forall id :: id in earned ==> id !in held
  {
    earned := [];
    var i := 0;
    while i < |badges|
      invariant 0 <= i <= |badges|
      invariant earned == EarnedBadges(badges[..i], held, met)
    {
      assert badges[..i + 1][..i] == badges[..i];
      var b := badges[i];
      if b.id in held {
        i := i + 1;
        continue;
      }
      if met(b) {
        earned := earned + [b.id];
      }
      i := i + 1;
    }
    assert badges[..|badges|] == badges;
    EarnedBadgesAreNew(badges, held, met);
  }

  /** `badges` with each of `extra` appended unless already present. */
  function AppendAbsent(badges: seq<string>, extra: seq<string>): seq<string> {
    if extra == [] then badges
    else
      var before := AppendAbsent(badges, extra[..|extra| - 1]);
      var x := extra[|extra| - 1];
      if x in before then before else before + [x]
  }

  predicate NoDuplicates(xs: seq<string>) {
    forall i, j :: 0 <= i < j < |xs| ==> xs[i] != xs[j]
  }

  /** Appending the absent ones keeps the old badges in front and in order,
      holds exactly the old and the new ones, and adds no duplicate. */
  lemma {:induction false} AppendAbsentProperties(badges: seq<string>, extra: seq<string>)
    ensures var r := AppendAbsent(badges, extra);
            |badges| <= |r| && r[..|badges|] == badges
    ensures forall x :: x in AppendAbsent(badges, extra) <==> x in badges || x in extra
    ensures NoDuplicates(badges) ==> NoDuplicates(AppendAbsent(badges, extra))
  {
    if extra != [] {
      var init := extra[..|extra| - 1];
      AppendAbsentProperties(badges, init);
      var before := AppendAbsent(badges, init);
      var x := extra[|extra| - 1];
      assert extra == init + [x];
      if x !in before {
        assert (before + [x])[..|badges|] == before[..|badges|];
      }
    }
  }

  /** The badge loop of `update_after_quiz`. */
  method MergeBadges(badges: seq<string>, extra: seq<string>) returns (merged: seq<string>)
    ensures merged == AppendAbsent(badges, extra)
  {
    merged := badges;
    var i := 0;
    while i < |extra|
      invariant 0 <= i <= |extra|
      invariant merged == AppendAbsent(badges, extra[..i])
    {
      assert extra[..i + 1][..i] == extra[..i];
      if extra[i] !in merged {
        merged := merged + [extra[i]];
      }
      i := i + 1;
    }
    assert extra[..|extra|] == extra;
  }

  /** The dictionary `update_after_quiz` returns. On failure only the first
      three keys are present; the others are None then. */
  datatype QuizUpdate = QuizUpdate(
    pointsEarned: int,
    newTotalPoints: Option<int>,
    levelUp: bool,
    newLevel: Option<string>,
    newBadges: seq<string>,
    streakDays: Option<int>)

  const FailedUpdate := QuizUpdate(0, None, false, None, [], None)

  function PointsEarned(cfg: Config.GamificationConfig, score: int): int {
    score * cfg.pointsPerCorrect + cfg.pointsPerQuiz
  }

  /** `update_after_quiz`. `fetched` is the stored record or the error of
      the fetch; `saveFails` says whether saving raised; `met` evaluates a
      badge's criteria against the fetched record. An empty level table makes
      the level lookup raise. Returns the outcome and the record sent to be
      saved, if the update got that far. */
  method UpdateAfterQuiz(cfg: Config.GamificationConfig, fetched: Result<GamificationData, string>,
                         result: QuizResult, met: Config.BadgeDef -> bool, now: int, saveFails: bool)
    returns (r: QuizUpdate, saved: Option<GamificationData>)
    ensures fetched.Err? || cfg.levels == [] ==> r == FailedUpdate && saved.None?
    ensures fetched.Ok? && cfg.levels != [] ==>
              var g := fetched.value;
              var pts := PointsEarned(cfg, result.score);
              var oldLevel := Config.GetLevelForPoints(cfg.levels, g.totalPoints).name;
              var newLevel := Config.GetLevelForPoints(cfg.levels, g.totalPoints + pts).name;
              var streak := CalculateStreak(g.lastQuizDate, g.streakDays, now);
              var earned := EarnedBadges(cfg.badges, g.badges, met);
              saved == Some(g.(totalPoints := g.totalPoints + pts, level := newLevel,
                               quizzesCompleted := g.quizzesCompleted + 1, streakDays := streak,
                               lastQuizDate := Some(now),
                               perfectScores := g.perfectScores + (if result.percentage == 100.0 then 1 else 0),
                               badges := AppendAbsent(g.badges, earned)))
              && (saveFails ==> r == FailedUpdate)
              && (!saveFails ==> r == QuizUpdate(pts, Some(g.totalPoints + pts), oldLevel != newLevel,
                                                 if oldLevel != newLevel then Some(newLevel) else None,
                                                 earned, Some(streak)))
  {
    if fetched.Err? || cfg.levels == [] {
      return FailedUpdate, None;
    }
    var g := fetched.value;
    var pointsForCorrect := result.score * cfg.pointsPerCorrect;
    var totalEarned := pointsForCorrect + cfg.pointsPerQuiz;
    var oldTotal := g.totalPoints;
    var newTotal := oldTotal + totalEarned;
    var oldLevel := Config.GetLevelForPoints(cfg.levels, oldTotal);
    var newLevel := Config.GetLevelForPoints(cfg.levels, newTotal);
    var levelUp := oldLevel.name != newLevel.name;
    var newStreak := CalculateStreak(g.lastQuizDate, g.streakDays, now);
    var newBadges := CheckNewBadges(cfg.badges, g.badges, met);

    g := g.(totalPoints := newTotal, level := newLevel.name, quizzesCompleted := g.quizzesCompleted + 1,
            streakDays := newStreak, lastQuizDate := Some(now));
    if result.percentage == 100.0 {
      g := g.(perfectScores := g.perfectScores + 1);
    }
    var merged := MergeBadges(g.badges, newBadges);
    g := g.(badges := merged);
    saved := Some(g);
    if saveFails {
      return FailedUpdate, saved;
    }
    r := QuizUpdate(totalEarned, Some(newTotal), levelUp, if levelUp then Some(newLevel.name) else None,
                    newBadges, Some(newStreak));
  }
}
