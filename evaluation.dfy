/** Quiz grading as agents/evaluation_agent.py does it: every question is
    marked correct or incorrect, the score and percentage follow, and the
    percentage picks one of five fixed messages. */
module Evaluation {
  import opened Models
  import opened Text
  import Fractions

  /** An answer was given, is not empty, and matches the correct answer once
      both are stripped of surrounding white space. */
  predicate IsCorrect(q: QuizQuestion, answers: map<string, string>) {
    q.questionId in answers && answers[q.questionId] != ""
    && Strip(answers[q.questionId]) == Strip(q.correctAnswer)
  }

  /** The ids of the questions `keep` accepts (`wanted`) or rejects (not
      `wanted`), in quiz order. */
  function IdsWhere(qs: seq<QuizQuestion>, keep: QuizQuestion -> bool, wanted: bool): seq<string> {
    if qs == [] then []
    else IdsWhere(qs[..|qs| - 1], keep, wanted) + (if keep(qs[|qs| - 1]) == wanted then [qs[|qs| - 1].questionId] else [])
  }

  /** The ids of the questions answered correctly, in quiz order. */
  function CorrectIds(qs: seq<QuizQuestion>, answers: map<string, string>): seq<string> {
    IdsWhere(qs, (q: QuizQuestion) => IsCorrect(q, answers), true)
  }

  /** The ids of the other questions, in quiz order. */
  function IncorrectIds(qs: seq<QuizQuestion>, answers: map<string, string>): seq<string> {
    IdsWhere(qs, (q: QuizQuestion) => IsCorrect(q, answers), false)
  }

  function Ids(qs: seq<QuizQuestion>): seq<string> {
    if qs == [] then [] else Ids(qs[..|qs| - 1]) + [qs[|qs| - 1].questionId]
  }

  lemma {:induction false} IdsWherePartition(qs: seq<QuizQuestion>, keep: QuizQuestion -> bool)
    ensures multiset(IdsWhere(qs, keep, true)) + multiset(IdsWhere(qs, keep, false)) == multiset(Ids(qs))
    ensures |IdsWhere(qs, keep, true)| + |IdsWhere(qs, keep, false)| == |qs|
  {
    if qs != [] {
      IdsWherePartition(qs[..|qs| - 1], keep);
    }
  }

  /** Every question lands in exactly one of the two lists: together they
      hold each id as often as the quiz does, so their lengths add up. */
  lemma PartitionIsExact(qs: seq<QuizQuestion>, answers: map<string, string>)
    ensures multiset(CorrectIds(qs, answers)) + multiset(IncorrectIds(qs, answers)) == multiset(Ids(qs))
    ensures |CorrectIds(qs, answers)| + |IncorrectIds(qs, answers)| == |qs|
  {
    IdsWherePartition(qs, (q: QuizQuestion) => IsCorrect(q, answers));
  }

  lemma {:induction false} IdsWhereExactly(qs: seq<QuizQuestion>, keep: QuizQuestion -> bool, wanted: bool, id: string)
    ensures id in IdsWhere(qs, keep, wanted) <==> exists i :: 0 <= i < |qs| && qs[i].questionId == id && keep(qs[i]) == wanted
  {
    if qs != [] {
      var init := qs[..|qs| - 1];
      IdsWhereExactly(init, keep, wanted, id);
      if id in IdsWhere(init, keep, wanted) {
        var i :| 0 <= i < |init| && init[i].questionId == id && keep(init[i]) == wanted;
        assert qs[i] == init[i];
      }
      if exists i :: 0 <= i < |qs| && qs[i].questionId == id && keep(qs[i]) == wanted {
        var i :| 0 <= i < |qs| && qs[i].questionId == id && keep(qs[i]) == wanted;
        if i < |init| {
          assert init[i] == qs[i];
        }
      }
    }
  }

  /** An id is among the correct ones exactly when some question with that
      id was answered correctly, and among the incorrect ones exactly when
      some question with that id was not. */
  lemma CorrectIdsExactly(qs: seq<QuizQuestion>, answers: map<string, string>, id: string)
    ensures id in CorrectIds(qs, answers) <==> exists i :: 0 <= i < |qs| && qs[i].questionId == id && IsCorrect(qs[i], answers)
    ensures id in IncorrectIds(qs, answers) <==> exists i :: 0 <= i < |qs| && qs[i].questionId == id && !IsCorrect(qs[i], answers)
  {
    IdsWhereExactly(qs, (q: QuizQuestion) => IsCorrect(q, answers), true, id);
    IdsWhereExactly(qs, (q: QuizQuestion) => IsCorrect(q, answers), false, id);
  }

  /** `score / total * 100`, or 0 for an empty quiz. */
  function Percentage(score: nat, total: nat): real {
    if total > 0 then (score as real) / (total as real) * 100.0 else 0.0
  }

  lemma PercentageRange(score: nat, total: nat)
    requires score <= total
    ensures 0.0 <= Percentage(score, total) <= 100.0
    ensures Percentage(score, total) == 100.0 <==> total > 0 && score == total
  {
    if total > 0 {
      Fractions.PercentBounds(score, total);
    }
  }

  const PerfectMessage := "\U{11F}\U{178}\U{152}\U{178} Perfect score! You're a financial superstar! Keep up the amazing work!"
  const ExcellentMessage := "\U{11F}\U{178}\U{2030} Excellent work! You really understand this concept. Just a few more details to master!"
  const GoodMessage := "\U{11F}\U{178}\U{2018} Good job! You're on the right track. Review the questions you missed and try again!"
  const EffortMessage := "\U{11F}\U{178}\U{2019}\U{AA} Nice effort! This is a challenging topic. Take your time to review and you'll get better!"
  const StartMessage := "\U{11F}\U{178}\U{152}\U{B1} Great start! Learning takes time. Review the material and don't give up - you've got this!"

  /** `_generate_feedback`: the message of the band the percentage falls in. */
  function FeedbackMessage(percentage: real): (m: string)
    ensures percentage == 100.0 ==> m == PerfectMessage
    ensures 80.0 <= percentage && percentage != 100.0 ==> m == ExcellentMessage
    ensures 60.0 <= percentage < 80.0 ==> m == GoodMessage
    ensures 40.0 <= percentage < 60.0 ==> m == EffortMessage
    ensures percentage < 40.0 ==> m == StartMessage
  {
    if percentage == 100.0 then PerfectMessage
    else if percentage >= 80.0 then ExcellentMessage
    else if percentage >= 60.0 then GoodMessage
    else if percentage >= 40.0 then EffortMessage
    else StartMessage
  }

  /** The grading loop of `evaluate`: the questions are marked one by one, in quiz order. */
  method Grade(questions: seq<QuizQuestion>, answers: map<string, string>)
    returns (correct: seq<string>, incorrect: seq<string>)
    ensures correct == CorrectIds(questions, answers)
    ensures incorrect == IncorrectIds(questions, answers)
  {
    correct := [];
    incorrect := [];
    var i := 0;
    while i < |questions|
      invariant 0 <= i <= |questions|
      invariant correct == CorrectIds(questions[..i], answers)
      invariant incorrect == IncorrectIds(questions[..i], answers)
    {
      assert questions[..i + 1][..i] == questions[..i];
      var q := questions[i];
      if IsCorrect(q, answers) {
        correct := correct + [q.questionId];
      } else {
        incorrect := incorrect + [q.questionId];
      }
      i := i + 1;
    }
    assert questions[..|questions|] == questions;
  }

  /** `evaluate`: the graded lists, the score and percentage they give, and
      the message of that percentage; points are awarded later. */
  method Evaluate(quizId: string, userId: string, questions: seq<QuizQuestion>, answers: map<string, string>)
    returns (r: QuizResult)
    ensures r.correctQuestions == CorrectIds(questions, answers)
    ensures r.incorrectQuestions == IncorrectIds(questions, answers)
    ensures r.score == |r.correctQuestions| && r.totalQuestions == |questions|
    ensures 0 <= r.score <= r.totalQuestions
    ensures r.percentage == Percentage(r.score, r.totalQuestions)
    ensures 0.0 <= r.percentage <= 100.0
    ensures r.feedback == FeedbackMessage(r.percentage)
    ensures r.quizId == quizId && r.userId == userId
    ensures r.pointsEarned == 0 && !r.levelUp && r.newBadges == []
  {
    var correct, incorrect := Grade(questions, answers);
    PartitionIsExact(questions, answers);
    var score := |correct|;
    var total := |questions|;
    PercentageRange(score, total);
    var percentage := if total > 0 then (score as real) / (total as real) * 100.0 else 0.0;
    r := QuizResult(quizId, userId, score, total, percentage, correct, incorrect, 0, false, [],
                    FeedbackMessage(percentage));
  }
}
