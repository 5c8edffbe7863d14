/** The difficulty choice of agents/orchestrator.py: a baseline from the
    reader's age, moved at most one step by how they did in their five most
    recent quizzes. */
module Orchestrator {
  import opened Wrappers
  import opened Models

  /** The age used when no profile is known. */
  const DefaultAge := 10

  function Baseline(age: int): (d: DifficultyLevel)
    ensures d == Beginner <==> age < 10
    ensures d == Intermediate <==> 10 <= age < 14
    ensures d == Advanced <==> age >= 14
  {
    if age < 10 then Beginner else if age < 14 then Intermediate else Advanced
  }

  /** The position of a level on the scale. */
  function Step(d: DifficultyLevel): nat {
    match d
    case Beginner => 0
    case Intermediate => 1
    case Advanced => 2
  }

  /** The five most recent entries, or all of them when there are fewer. */
  function Recent(history: seq<QuizHistory>): (r: seq<QuizHistory>)
    ensures |r| == if |history| < 5 then |history| else 5
    ensures r == history[|history| - |r|..]
  {
    if |history| <= 5 then history else history[|history| - 5..]
  }

  predicate AllGraded(history: seq<QuizHistory>) {
    forall i :: 0 <= i < |history| ==> history[i].totalQuestions > 0
  }

  function Ratio(q: QuizHistory): real
    requires q.totalQuestions > 0
  {
    (q.score as real) / (q.totalQuestions as real)
  }

  function SumRatios(hs: seq<QuizHistory>): real
    requires AllGraded(hs)
  {
    if hs == [] then 0.0 else SumRatios(hs[..|hs| - 1]) + Ratio(hs[|hs| - 1])
  }

  function MeanRatio(hs: seq<QuizHistory>): real
    requires AllGraded(hs) && hs != []
  {
    SumRatios(hs) / (|hs| as real)
  }

  /** `_determine_difficulty`. Every averaged entry must have questions, as
      the division by `total_questions` raises otherwise. */
  function DetermineDifficulty(profile: Option<UserProfile>, history: seq<QuizHistory>): (d: DifficultyLevel)
    requires AllGraded(Recent(history))
    ensures var base := Baseline(if profile.Some? then profile.value.age else DefaultAge);
            (history == [] ==> d == base)
            && (history != [] && MeanRatio(Recent(history)) > 0.9 ==> Step(d) == if Step(base) == 2 then 2 else Step(base) + 1)
            && (history != [] && MeanRatio(Recent(history)) < 0.6 ==> Step(d) == if Step(base) == 0 then 0 else Step(base) - 1)
            && (history != [] && 0.6 <= MeanRatio(Recent(history)) <= 0.9 ==> d == base)
  {
    var age := if profile.Some? then profile.value.age else DefaultAge;
    var base := Baseline(age);
    if history == [] then base
    else
      var avg := MeanRatio(Recent(history));
      if avg > 0.9 && base != Advanced then
        (if base == Beginner then Intermediate else Advanced)
      else if avg < 0.6 && base != Beginner then
        (if base == Advanced then Intermediate else Beginner)
      else base
  }

  /** The chosen level is never more than one step from the age baseline. */
  lemma WithinOneStep(profile: Option<UserProfile>, history: seq<QuizHistory>)
    requires AllGraded(Recent(history))
    ensures var base := Baseline(if profile.Some? then profile.value.age else DefaultAge);
            var d := DetermineDifficulty(profile, history);
            Step(base) - 1 <= Step(d) <= Step(base) + 1
  {
  }

  /** Entries older than the last five do not influence the choice. */
  lemma OnlyRecentCount(profile: Option<UserProfile>, older: seq<QuizHistory>, history: seq<QuizHistory>)
    requires |history| >= 5
    requires AllGraded(Recent(history))
    ensures Recent(older + history) == Recent(history)
    ensures DetermineDifficulty(profile, older + history) == DetermineDifficulty(profile, history)
  {
    assert (older + history)[|older + history| - 5..] == history[|history| - 5..];
  }

  /** With every score between 0 and its question count, each ratio lies in
      [0, 1], so the sum of n ratios lies in [0, n]. */
  lemma {:induction false} SumRatiosBounds(hs: seq<QuizHistory>)
    requires AllGraded(hs)
    requires forall i :: 0 <= i < |hs| ==> 0 <= hs[i].score <= hs[i].totalQuestions
    ensures 0.0 <= SumRatios(hs) <= |hs| as real
  {
    if hs != [] {
      var last := hs[|hs| - 1];
      SumRatiosBounds(hs[..|hs| - 1]);
      assert (last.score as real) <= (last.totalQuestions as real);
      assert Ratio(last) <= 1.0;
    }
  }
}
