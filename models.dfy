/** The records that flow between the agents. Those of models/__init__.py are
    transcribed; BiasAnalysis, QuizFeedback, AdminReview and ReviewAction are
    not defined there and are rebuilt from the way the agents construct and
    read them. Time stamps are plain integers supplied by the caller. */
module Models {
  import opened Wrappers

  datatype DifficultyLevel = Beginner | Intermediate | Advanced

  datatype UserProfile = UserProfile(
    userId: string,
    name: string,
    age: int,
    hobbies: seq<string>,
    interests: seq<string>,
    preferredLearningStyle: Option<string>,
    createdAt: int)

  datatype Transaction = Transaction(
    transactionId: string,
    userId: string,
    amount: real,
    category: string,
    merchant: string,
    description: Option<string>,
    timestamp: int)

  datatype QuizHistory = QuizHistory(
    quizId: string,
    userId: string,
    concept: string,
    score: int,
    totalQuestions: int,
    completedAt: int,
    timeTakenSeconds: Option<int>)

  /** Gamification record; `lastQuizDate` is a time in seconds. */
  datatype GamificationData = GamificationData(
    userId: string,
    totalPoints: int,
    level: string,
    badges: seq<string>,
    streakDays: int,
    quizzesCompleted: int,
    perfectScores: int,
    lastQuizDate: Option<int>)

  /** `GamificationData(user_id=...)` with every other field at its default. */
  function DefaultGamification(userId: string): (g: GamificationData)
    ensures g.userId == userId && g.totalPoints == 0 && g.level == "Beginner" && g.badges == []
    ensures g.streakDays == 0 && g.quizzesCompleted == 0 && g.perfectScores == 0 && g.lastQuizDate.None?
  {
    GamificationData(userId, 0, "Beginner", [], 0, 0, 0, None)
  }

  datatype QuizQuestion = QuizQuestion(
    questionId: string,
    questionText: string,
    options: seq<string>,
    correctAnswer: string,
    explanation: string,
    difficulty: DifficultyLevel)

  datatype QuizResult = QuizResult(
    quizId: string,
    userId: string,
    score: int,
    totalQuestions: int,
    percentage: real,
    correctQuestions: seq<string>,
    incorrectQuestions: seq<string>,
    pointsEarned: int,
    levelUp: bool,
    newBadges: seq<string>,
    feedback: string)

  /** The 1 to 5 star range that `Feedback` validates on construction. */
  type Rating = r: int | 1 <= r <= 5 witness 1

  datatype Feedback = Feedback(
    feedbackId: string,
    quizId: string,
    userId: string,
    rating: Rating,
    comments: Option<string>,
    difficultyRating: Option<string>,
    engagementRating: Option<int>,
    submittedAt: int)

  /** Result of a fairness check of some content. */
  datatype BiasAnalysis = BiasAnalysis(
    hasBias: bool,
    biasTypes: seq<string>,
    severity: string,
    specificIssues: seq<string>,
    recommendations: seq<string>,
    confidenceScore: real,
    analyzedAt: int)

  /** Feedback about one quiz as the feedback agent records it. */
  datatype QuizFeedback = QuizFeedback(
    feedbackId: string,
    quizId: string,
    userId: string,
    concept: string,
    rating: int,
    comments: Option<string>,
    difficultyPerception: Option<string>,
    relevanceScore: Option<int>,
    biasAnalysis: Option<BiasAnalysis>,
    createdAt: int,
    processed: bool)

  /** The five decisions a moderator can take. */
  datatype ReviewAction = Approve | Reject | FlagBias | UpdateContent | Dismiss

  function ActionName(a: ReviewAction): string {
    match a
    case Approve => "approve"
    case Reject => "reject"
    case FlagBias => "flag_bias"
    case UpdateContent => "update_content"
    case Dismiss => "dismiss"
  }

  /** `ReviewAction(decision)`: the enum member whose value is `decision`,
      or None where Python raises. */
  function ParseAction(decision: string): (r: Option<ReviewAction>)
    ensures r.Some? ==> ActionName(r.value) == decision
  {
    if decision == "approve" then Some(Approve)
    else if decision == "reject" then Some(Reject)
    else if decision == "flag_bias" then Some(FlagBias)
    else if decision == "update_content" then Some(UpdateContent)
    else if decision == "dismiss" then Some(Dismiss)
    else None
  }

  /** Each action's value parses back to that action. */
  lemma ParseActionName(a: ReviewAction)
    ensures ParseAction(ActionName(a)) == Some(a)
  {
  }

  /** The admin's override dictionary: each key may be missing. */
  datatype BiasOverride = BiasOverride(
    biasTypes: Option<seq<string>>,
    severity: Option<string>,
    specificIssues: Option<seq<string>>,
    recommendations: Option<seq<string>>)

  /** Python truthiness of the override: a missing or empty dictionary is false. */
  predicate OverrideGiven(o: Option<BiasOverride>) {
    o.Some? && (o.value.biasTypes.Some? || o.value.severity.Some?
                || o.value.specificIssues.Some? || o.value.recommendations.Some?)
  }

  /** The record of one moderator decision. */
  datatype AdminReviewRecord = AdminReviewRecord(
    reviewId: string,
    feedbackId: string,
    adminId: string,
    decision: ReviewAction,
    adminNotes: Option<string>,
    biasOverride: Option<BiasOverride>,
    reviewedAt: int,
    actionsTaken: seq<string>)
}
