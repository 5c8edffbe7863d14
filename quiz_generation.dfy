/** The deterministic parts of agents/quiz_generation_agent.py: how many
    questions to ask, and how the questions the model returned are numbered.
    The model call itself is an input: the parsed list of question entries. */
module QuizGeneration {
  import opened Wrappers
  import opened Models
  import opened Text

  /** `_get_question_count`; the difficulty is accepted but not consulted. */
  function QuestionCount(age: int, difficulty: DifficultyLevel): (n: nat)
    ensures n in {3, 4, 5}
    ensures n == 3 <==> age < 10
    ensures n == 4 <==> 10 <= age < 13
    ensures n == 5 <==> age >= 13
  {
    if age < 10 then 3 else if age < 13 then 4 else 5
  }

  /** Older readers never get fewer questions, whatever the difficulties. */
  lemma QuestionCountMonotone(a: int, b: int, d1: DifficultyLevel, d2: DifficultyLevel)
    requires a <= b
    ensures QuestionCount(a, d1) <= QuestionCount(b, d2)
  {
  }

  /** The attributes `generate_questions` looks up on the story it is given:
      a case brief has `case_id`, an older story `story_id`. */
  datatype StoryIds = StoryIds(caseId: Option<string>, storyId: Option<string>)

  /** `getattr(story, 'case_id', getattr(story, 'story_id', 'default'))`. */
  function StoryIdOf(story: StoryIds): (id: string)
    ensures story.caseId.Some? ==> id == story.caseId.value
    ensures story.caseId.None? && story.storyId.Some? ==> id == story.storyId.value
    ensures story.caseId.None? && story.storyId.None? ==> id == "default"
  {
    match story.caseId
    case Some(c) => c
    case None => story.storyId.GetOr("default")
  }

  /** The id of the question at (zero-based) position `i`. */
  function QuestionId(storyId: string, i: nat): (id: string)
    ensures StartsWith(id, "q_" + storyId + "_")
  {
    "q_" + storyId + "_" + NatToString(i + 1)
  }

  /** Two positions never share an id. */
  lemma QuestionIdsDistinct(storyId: string, i: nat, j: nat)
    requires i != j
    ensures QuestionId(storyId, i) != QuestionId(storyId, j)
  {
    var p := "q_" + storyId + "_";
    if QuestionId(storyId, i) == QuestionId(storyId, j) {
      assert NatToString(i + 1) == QuestionId(storyId, i)[|p|..];
      assert NatToString(j + 1) == QuestionId(storyId, j)[|p|..];
      NatToStringInjective(i + 1, j + 1);
    }
  }

  /** One entry of the model's "questions" list. */
  datatype QuestionData = QuestionData(question: string, options: seq<string>, correctAnswer: string, explanation: string)

  function ToQuestion(storyId: string, i: nat, q: QuestionData, difficulty: DifficultyLevel): QuizQuestion {
    QuizQuestion(QuestionId(storyId, i), q.question, q.options, q.correctAnswer, q.explanation, difficulty)
  }

  /** The numbering loop of `generate_questions`: every entry becomes one
      question, in the order given, numbered from 1. */
  method BuildQuestions(story: StoryIds, data: seq<QuestionData>, difficulty: DifficultyLevel)
    returns (questions: seq<QuizQuestion>)
    ensures |questions| == |data|
    ensures forall i :: 0 <= i < |data| ==> questions[i] == ToQuestion(StoryIdOf(story), i, data[i], difficulty)
    ensures forall i, j :: 0 <= i < j < |questions| ==> questions[i].questionId != questions[j].questionId
  {
    var storyId := StoryIdOf(story);
    questions := [];
    var idx := 0;
    while idx < |data|
      invariant 0 <= idx <= |data|
      invariant |questions| == idx
      invariant forall i :: 0 <= i < idx ==> questions[i] == ToQuestion(storyId, i, data[i], difficulty)
    {
      questions := questions + [ToQuestion(storyId, idx, data[idx], difficulty)];
      idx := idx + 1;
    }
    forall i, j | 0 <= i < j < |questions| ensures questions[i].questionId != questions[j].questionId {
      QuestionIdsDistinct(storyId, i, j);
    }
  }
}
