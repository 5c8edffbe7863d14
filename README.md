# Financial Education: a verified model of the agents' deterministic core

Financial Education is a learning app for children and teenagers. Agents
write personalised stories and quizzes about money, grade the answers, award
points, levels, streaks and badges, and run a feedback loop. In that loop,
learner feedback is screened for bias and escalated to human moderators. A
moderator's decision can refresh the knowledge base the stories are drawn from.

This project models, in Dafny, everything in that system that does not depend
on a language model, a database engine or the web layer:

- **The moderation loop.**
  - `admin_review.dfy` models the admin review queue, kept in priority order.
  - It also models the decision state machine and its error cases, the
    filtered views, the statistics and the manual bias flag.
  - `feedback_agent.dfy` models feedback collection and the fallback analysis.
  - It also models the six escalation rules with their last-writer-wins
    priority, the knowledge-base refresh and the aggregate insights.
- **Bias checking** (`bias_checking.dfy`):
  - the line parser of the checker's reply;
  - the text extraction per content type;
  - the improvement short cut;
  - the human-readable report.
- **Grading and progress.**
  - `evaluation.dfy` grades a quiz.
  - `gamification.dfy` is the gamification agent: points, level, streak and badges.
  - `database_gamification.dfy` models the counters of `database.py`.
  - `level_names.dfy` models the rank-name mapping of `utils/database.py`.
  - `config.dfy` models the configuration lookups.
- **Personalisation.**
  - `orchestrator.dfy` chooses the adaptive difficulty.
  - `personalization.dfy` covers concept mastery and spending analysis.
  - `quiz_generation.dfy` sets the question count and numbers the questions.
  - `content_generation.dfy` splits the story title and picks the personal touches.
- **Stores.**
  - `feedback_store.dfy` models the feedback list.
  - `tracer.dfy` models the agent tracer.
  - `mcp_tables.dfy` models the in-memory tables of the data server.
- **Shared modules.**
  - `models.dfy` holds the record types.
  - `text.dfy` holds Python's string operations in the subset used: strip,
    split, join, lower, `replace`, `int()` on digits, and the text of a number.
  - `wrappers.dfy` holds `Option` and `Result`.

Objects that update their own state are Dafny classes whose methods state the
whole new state:

- `ReviewStore`
- `KnowledgeBase`
- `FeedbackProcessor`
- `AgentTracer`
- `McpServer`

Loops in the source are methods with invariants. Each is proved equal to a
specification function, and the source's promises are lemmas about that
function. Python semantics are written out where they matter:

- the truthiness of `x or default`;
- floor division;
- `split('\n', 1)`;
- a negative slice limit;
- `max` returning the first maximal key;
- dictionaries iterating in insertion order;
- `list.sort` being stable.

The record types `QuizFeedback`, `BiasAnalysis`, `ReviewAction` and
`AdminReview` come from a module that is not part of this model. Their fields
are reconstructed from how the agents read and write them.

## Model

| member | source | states |
|---|---|---|
| AdminReview.Rank | agents/admin_review_agent.py:68-69 | the rank of a priority is at most 3: urgent 0, high 1, medium 2, low 3, any other value 2 |
| AdminReview.SortByRankSorted | agents/admin_review_agent.py:67-69 | the queue after sorting is ordered by priority rank |
| AdminReview.SortByRankPermutation | agents/admin_review_agent.py:64-69 | sorting neither loses nor duplicates a review item |
| AdminReview.SortByRankStable | agents/admin_review_agent.py:69 | the sort is stable: the items of each rank keep their relative order |
| AdminReview.InsertIntoSorted | agents/admin_review_agent.py:64-69 | appending to a sorted queue and re-sorting places the new item after every item of its rank or a more urgent rank and before every less urgent item |
| AdminReview.InsertKeepsIdsDistinct | agents/admin_review_agent.py:51-69 | adding an item with a fresh id keeps review ids unique |
| AdminReview.ResolveKeepsInvariant | agents/admin_review_agent.py:231-236 | marking one item reviewed keeps the queue sorted, ids unique and every item well formed |
| AdminReview.FindReview | agents/admin_review_agent.py:128-132 | the position of the first item with the id, or none exactly when no item has it |
| AdminReview.ActionsTaken | agents/admin_review_agent.py:146-229 | no action is recorded exactly for flag_bias without an override or update_content without force; the knowledge base is called exactly in the two remaining bias cases; at most two tags |
| AdminReview.OverrideAnalysis | agents/admin_review_agent.py:164-173 | a moderator's override is a biased verdict with full confidence, its missing lists are empty and its missing severity takes the decision's default |
| AdminReview.FlagBiasFailsOnlyIfCallRaises | agents/admin_review_agent.py:180-192 | with an override given, flag_bias fails exactly when the knowledge-base call raises |
| AdminReview.KnowledgeBaseArgument | agents/admin_review_agent.py:160-220 | flag_bias hands over an analysis exactly when an override is given; an override gives a biased, full-confidence analysis with its lists, and its severity or "medium" for flag_bias and "high" for update_content; a forced update without an override hands over the feedback's own analysis |
| AdminReview.Select | agents/admin_review_agent.py:92-100 | the items that pass one status or priority filter, in queue order |
| AdminReview.ReviewQueueView | agents/admin_review_agent.py:92-100 | the view holds exactly the items that match the given filters, in queue order; with no filters it is the whole queue |
| AdminReview.StatisticsOf | agents/admin_review_agent.py:254-293 | totals match the queue and history sizes; pending plus reviewed never exceed the total; the pending breakdown never exceeds the pending count; manual flags equal flag_bias decisions; accuracy times reviewed equals 100 times approvals |
| AdminReview.StatisticsCountViews | agents/admin_review_agent.py:254-264 | the pending and reviewed counts, and each pending-by-priority count, are the sizes of the queue views with those status and priority filters |
| AdminReview.StatisticsCountDecisions | agents/admin_review_agent.py:266-279 | each decision count, and the manual bias flags, is how often that decision occurs among the decisions recorded on the queue |
| AdminReview.CountStatusIsView | agents/admin_review_agent.py:255-256 | counting the items with a status gives the size of the queue viewed with that status filter |
| AdminReview.CountPendingPriorityIsView | agents/admin_review_agent.py:258-264 | counting the pending items of a priority gives the size of the queue viewed with the pending and priority filters |
| AdminReview.CountDecisionIsOccurrences | agents/admin_review_agent.py:266-273 | counting the items with a decision gives that decision's occurrences in the list of recorded decisions |
| AdminReview.DecisionsCoverReviewed | agents/admin_review_agent.py:266-274 | in a well-formed queue the decision counts add up to the number of reviewed items |
| AdminReview.Accuracy | agents/admin_review_agent.py:282-283 | 0 with nothing reviewed; otherwise approvals times 100 over the reviewed count, within 0..100 when approvals are among the reviewed |
| AdminReview.AccuracyIsPercentage | agents/admin_review_agent.py:282-283 | the AI accuracy figure lies between 0 and 100 |
| AdminReview.PendingPlusReviewedBounded | agents/admin_review_agent.py:254-256 | pending and reviewed items together never exceed the queue length |
| AdminReview.PriorityBreakdownBounded | agents/admin_review_agent.py:258-264 | the four pending-by-priority counts together never exceed the queue length |
| AdminReview.ReviewStore.constructor | agents/admin_review_agent.py:365-382 | a store starts with an empty queue and an empty history, in its invariant |
| AdminReview.ReviewStore.AddToReviewQueue | agents/admin_review_agent.py:51-75 | the new queue is the old one plus the new pending item, re-sorted; the item lands after every item of equal or higher urgency; nothing is lost; the history is untouched; the invariant holds |
| AdminReview.ReviewStore.GetReviewQueue | agents/admin_review_agent.py:92-100 | exactly the stored items matching the filters, in queue order |
| AdminReview.ReviewStore.AddToHistory | agents/admin_review_agent.py:384-396 | the history grows by one entry that pairs the item with the review; the queue is unchanged |
| AdminReview.ReviewStore.ProcessAdminReview | agents/admin_review_agent.py:128-247 | an unknown id and an unknown decision are errors; a failing knowledge-base call is an error; errors change nothing; on success only that item becomes reviewed with the decision and actions, the history gains one entry, and the queue stays sorted with unique ids |
| AdminReview.TakeDecision | agents/admin_review_agent.py:146-229 | a decision fails exactly when the knowledge-base update it makes fails (flag_bias with an override, update_content with force), with that decision's error; otherwise it gives that decision's action tags |
| AdminReview.FindReviewDistinct | agents/admin_review_agent.py:128-132 | looking up the id of an item whose id occurs once in the queue finds that item's position |
| AdminReview.DecideReviewedItemAgain | agents/admin_review_agent.py:128-247 | in any valid store, a recognised decision on an already reviewed item succeeds exactly when its knowledge-base step does; it then replaces that item's decision, admin and time, leaves every other item as it was, and adds one history record |
| AdminReview.ReviewStore.GetStatistics | agents/admin_review_agent.py:249-294 | the statistics of the stored queue and history: the pending and reviewed counts are the sizes of those queue views, the decision counts are occurrences among the recorded decisions, with the bounds of StatisticsOf |
| AdminReview.ReviewStore.FlagBiasManually | agents/admin_review_agent.py:328-363 | a synthetic rating-1, relevance-1, processed feedback carrying a full-confidence bias verdict is queued right after the urgent items already waiting; the history is unchanged |
| AdminReview.CountIdUpdate | agents/admin_review_agent.py:231-239 | replacing an item by one with the same id leaves the count of every id unchanged |
| Models.DefaultGamification | models/__init__.py:44-53 | a new player starts at 0 points, level Beginner, with no badges, no streak, no quizzes and no last date |
| Models.ParseAction | agents/admin_review_agent.py:139 | a decision text is accepted only when it is the name of the decision it gives |
| Models.ParseActionName | agents/admin_review_agent.py:139 | parsing a decision's own name gives that decision back |
| FeedbackIntake.AnalyzeBias | agents/feedback_agent.py:151-175 | a failed call yields the unbiased, zero-confidence, manual-review fallback; otherwise each of the six fields is the reply's value when present and its default when missing: no bias, no types, severity low, no issues, no recommendations, confidence 0.5 |
| FeedbackIntake.CollectFeedback | agents/feedback_agent.py:59-81 | an analysis is attached exactly when there are non-empty comments; every other field is taken from the input; the id is prefixed by the quiz id |
| FeedbackIntake.KnowledgeBase.UpdateForBias | agents/feedback_agent.py:312-340 | rewritten content is stored once as a bias-corrected document; a failure is swallowed and changes nothing |
| FeedbackIntake.KeywordRuleLast | agents/feedback_agent.py:245-253 | the keyword rule applies on top of the other rules: it only adds its tag and its reason, and fills in "urgent" only when no priority is set |
| FeedbackIntake.SameRulesWithoutComments | agents/feedback_agent.py:199-243 | the rating, bias, confidence, difficulty and relevance rules do not look at the comments |
| FeedbackIntake.KeywordRule | agents/feedback_agent.py:245-253 | a concerning keyword adds its tag, requests a review, sets its reason, and sets "urgent" only when no priority is set; without one nothing changes |
| FeedbackIntake.DifficultyRules | agents/feedback_agent.py:235-243 | the difficulty and relevance rules only append their tags, in order |
| FeedbackIntake.PriorityAndReasonIffReview | agents/feedback_agent.py:199-263 | a priority and a reason are set exactly when review is required, so the enqueue defaults are never used |
| FeedbackIntake.FinalPriorityRange | agents/feedback_agent.py:203-251 | the final priority is urgent, high or medium |
| FeedbackIntake.LowConfidenceOverridesLowRating | agents/feedback_agent.py:200-233 | last writer wins: low confidence turns a low rating's "high" into "medium" |
| FeedbackIntake.KeywordRuleKeepsPriority | agents/feedback_agent.py:249-251 | keywords alone give "urgent"; after another rule has fired they never change its priority |
| FeedbackIntake.DifficultyAndRelevanceNeverEscalate | agents/feedback_agent.py:235-243 | the difficulty and relevance answers never affect whether, how urgently or why a review is requested |
| FeedbackIntake.FailedAnalysisTriggersReview | agents/feedback_agent.py:164-175 | a failed classification always requires review, with medium priority, through the low-confidence rule |
| FeedbackIntake.MentionsConcerningKeyword | agents/feedback_agent.py:246-249 | true exactly when the lower-cased comments contain one of the nine keywords |
| FeedbackIntake.RatingAndBiasRules | agents/feedback_agent.py:199-233 | the first three rules give the tags, review flag, priority and reason of all rules applied to the feedback without comments; the knowledge base grows only for a severe bias |
| FeedbackIntake.ApplyRules | agents/feedback_agent.py:199-253 | the outcome of all six rules equals the declarative rule functions |
| FeedbackIntake.ProcessFeedback | agents/feedback_agent.py:177-272 | the result reports the rule outcome; the item is queued, re-sorted, exactly when review is required and a review agent is present; otherwise the queue is unchanged; the review history is never touched |
| FeedbackIntake.NeedingMembers | agents/feedback_agent.py:377-384 | a concept is reported exactly when it is in the key order and its average rating is under 3.5 |
| FeedbackIntake.NeedingImprovementExactly | agents/feedback_agent.py:369-384 | exactly the concepts present whose average rating is under 3.5 need improvement |
| FeedbackIntake.ReportBounds | agents/feedback_agent.py:358-394 | the bias percentage lies between 0 and 100; health is "good" exactly when the average is at least 4 with no bias; the difficulty counts never exceed the total |
| FeedbackIntake.RatingsMapStep | agents/feedback_agent.py:372-375 | appending one rating to its concept's group keeps every group equal to the ratings seen so far |
| FeedbackIntake.GroupRatings | agents/feedback_agent.py:370-375 | the keys, in insertion order, are the distinct concepts in order of first appearance, each holding its ratings in order |
| FeedbackIntake.GroupingStep | agents/feedback_agent.py:371-375 | one turn of the grouping loop keeps the keys in first-appearance order and each group equal to its concept's ratings so far |
| FeedbackIntake.ConceptsNeedingImprovement | agents/feedback_agent.py:369-384 | the two loops give exactly the concepts, in order of first appearance, whose average rating is under 3.5 |
| FeedbackIntake.SelectNeeding | agents/feedback_agent.py:377-384 | the groups with an average under 3.5, in key order |
| FeedbackIntake.GenerateFeedbackInsights | agents/feedback_agent.py:355-394 | no feedback gives the "No feedback available" message; otherwise the full report |
| BiasChecking.Clamp | agents/bias_checking_agent.py:188 | the score is kept in 0..10 and is unchanged inside that range |
| BiasChecking.NumberedItemText | agents/bias_checking_agent.py:207-213 | a numbered list line always holds a dot, so its item is the text after the first dot, stripped |
| BiasChecking.ItemOf | agents/bias_checking_agent.py:207-215 | a line gives at most one item, and only when it is a dash or numbered list line whose item text is non-empty |
| BiasChecking.LexLine | agents/bias_checking_agent.py:183-205 | on the stripped line, each of the five markers is recognised exactly by its prefix; a score or answer line holds a colon and carries its reading; every other line carries its list item |
| BiasChecking.ClassifyByPrefix | agents/bias_checking_agent.py:185-205 | each of the five markers is recognised exactly by its prefix |
| BiasChecking.ParseLine | agents/bias_checking_agent.py:183-219 | handling one line is one parser step on that line as read |
| BiasChecking.AddListItem | agents/bias_checking_agent.py:205-219 | a non-marker line appends its item to the issues or the recommendations when that section is open, and changes nothing otherwise |
| BiasChecking.StepNothing | agents/bias_checking_agent.py:205-215 | a line outside every section, or one that gives no item, leaves the parse state as it was |
| BiasChecking.ParseLines | agents/bias_checking_agent.py:182-219 | the loop performs one parser step per line, in order |
| BiasChecking.RunAppend | agents/bias_checking_agent.py:182-219 | parsing two pieces of text one after the other equals parsing them joined |
| BiasChecking.ParseBiasAnalysis | agents/bias_checking_agent.py:168-224 | the parse of the whole text split at newlines: a score in 0..10, the raw text kept as the analysis, no error |
| BiasChecking.ScoreStaysInRange | agents/bias_checking_agent.py:185-190 | no sequence of lines moves the score out of 0..10 |
| BiasChecking.AcceptableIsLastAnswer | agents/bias_checking_agent.py:192-194 | acceptability is decided by the last IS_ACCEPTABLE line alone |
| BiasChecking.ScoreIsLastScore | agents/bias_checking_agent.py:185-190 | the score is that of the last readable BIAS_SCORE line |
| BiasChecking.NoMarkersGiveDefaults | agents/bias_checking_agent.py:170-176 | text without any marker line gives the defaults: score 7, acceptable, no issues, no recommendations |
| BiasChecking.OtherLinesOutsideSections | agents/bias_checking_agent.py:205 | lines without a marker change nothing while no section header has been seen |
| BiasChecking.NoItemsBeforeHeader | agents/bias_checking_agent.py:205 | before any section header no line adds an issue or a recommendation, whatever score and answer lines come between |
| BiasChecking.AssessmentIgnoresItems | agents/bias_checking_agent.py:202-219 | inside the overall assessment, list lines change nothing |
| BiasChecking.ItemsComeFromListLines | agents/bias_checking_agent.py:205-219 | the issues and recommendations are only ever appended to, and every one added is the item of some non-marker line |
| BiasChecking.StepItems | agents/bias_checking_agent.py:215-219 | one line adds to the issues only its own item and only in the issues section, and likewise for the recommendations |
| BiasChecking.CheckContentBias | agents/bias_checking_agent.py:23-89 | a reply is parsed; a failed call gives score 5, acceptable, no issues or recommendations, the analysis "Bias check unavailable" and the error; the score is always in 0..10 |
| BiasChecking.QuestionBlock | agents/bias_checking_agent.py:113-121 | a question block starts with "Question: " |
| BiasChecking.StoryText | agents/bias_checking_agent.py:93-101 | a titled story's text starts with its title line |
| BiasChecking.AppendQuizBlocks | agents/bias_checking_agent.py:113-123 | the loop appends exactly the blocks of all questions, in order |
| BiasChecking.ExtractTextFromContent | agents/bias_checking_agent.py:91-132 | the text for each content type; a quiz's text starts with its case brief |
| BiasChecking.FallbackToRepr | agents/bias_checking_agent.py:125-129 | a hint or explanation that is missing falls back to the whole content's text |
| BiasChecking.SuggestImprovements | agents/bias_checking_agent.py:243-297 | a score of 8 or more returns the content unchanged; otherwise an improvement exactly when the call succeeds, carrying the recommendations and the original score |
| BiasChecking.HighScoreSkipsModel | agents/bias_checking_agent.py:243-245 | with a score of 8 or more the model's reply is irrelevant |
| BiasChecking.Status | agents/bias_checking_agent.py:302 | scores from 9 are excellent, from 7 good, from 5 need review, and below 5 require revision |
| BiasChecking.StatusMonotone | agents/bias_checking_agent.py:302 | a higher score never gets a worse status |
| BiasChecking.ListSection | agents/bias_checking_agent.py:314-324 | a section appears exactly when its list is non-empty, under its heading |
| BiasChecking.AppendSection | agents/bias_checking_agent.py:314-324 | the loop appends exactly that section |
| BiasChecking.GetBiasReport | agents/bias_checking_agent.py:299-328 | the report text of the score, the verdict and the two lists |
| BiasChecking.EmptyListsReport | agents/bias_checking_agent.py:314-326 | with no issues and no recommendations the report is the header followed directly by the closing rule |
| Config.GetAgeGroup | config/__init__.py:80-85 | the first group containing the age, or none exactly when no group contains it |
| Config.GetConcept | config/__init__.py:87-92 | the first concept with the id, or none exactly when none has it |
| Config.GetLevelForPoints | config/__init__.py:94-99 | a configured level containing the points, or the last level when none does |
| Config.PointsBelowAllLevelsGiveLast | config/__init__.py:94-99 | points below every range give the last, highest level |
| Config.LevelIndexMonotone | config/__init__.py:94-99 | with contiguous ascending ranges, more points never give an earlier level |
| Config.AscendingRanges | config/__init__.py:94-99 | contiguous ranges are strictly ascending |
| Evaluation.PartitionIsExact | agents/evaluation_agent.py:33-39 | every question is counted exactly once, as correct or as incorrect |
| Evaluation.CorrectIdsExactly | agents/evaluation_agent.py:34-36 | an id is counted correct exactly when some question with that id was answered correctly |
| Evaluation.PercentageRange | agents/evaluation_agent.py:42-44 | the percentage lies in 0..100 and is 100 exactly for a full score |
| Evaluation.FeedbackMessage | agents/evaluation_agent.py:64-81 | the message of each percentage band |
| Evaluation.Grade | agents/evaluation_agent.py:32-39 | the loop's correct and incorrect lists are the quiz-order lists of questions answered correctly and otherwise |
| Evaluation.Evaluate | agents/evaluation_agent.py:16-62 | the correct and incorrect lists, a score equal to the number correct, the percentage and message, with no points awarded yet |
| Gamification.CalculateStreak | agents/gamification_agent.py:107-122 | no earlier quiz starts a streak of 1; the same day keeps it; the next day extends it; a longer gap restarts at 1 |
| Gamification.StreakPositive | agents/gamification_agent.py:107-122 | a streak is at least 1 |
| Gamification.EarnedBadgesAreNew | agents/gamification_agent.py:135-153 | every earned badge is configured, not yet held, and has its criterion met |
| Gamification.CheckNewBadges | agents/gamification_agent.py:124-153 | the loop returns exactly the earned badges, none already held |
| Gamification.AppendAbsentProperties | agents/gamification_agent.py:80-82 | appending only absent badges keeps the old list as a prefix, yields the union of both, and keeps the list free of duplicates |
| Gamification.MergeBadges | agents/gamification_agent.py:80-82 | the loop appends the new badges that are absent |
| Gamification.UpdateAfterQuiz | agents/gamification_agent.py:18-105 | a failed fetch or an empty level table gives the failure result with nothing saved; otherwise the saved record has the new points, level, streak, date and badges, and the result reports them unless saving failed |
| GamificationStore.OrElse | database.py:450-452 | NULL and 0 fall back to the default; any other value is kept |
| GamificationStore.QuizPercentage | database.py:213 | zero when there are no questions; otherwise the score scaled to 100 |
| GamificationStore.QuizPercentageAgrees | database.py:213 | the stored percentage equals the evaluation agent's and lies in 0..100 |
| GamificationStore.GetGamificationData | database.py:372-416 | a missing row or a read failure gives the defaults; NULL counters read as 0; a NULL or 0 level reads as 1 and any other level as stored |
| GamificationStore.LevelForPoints | database.py:455 | level l covers exactly the points from 100(l-1) to 100l-1 |
| GamificationStore.LevelMonotone | database.py:455 | more points never give a lower level |
| GamificationStore.DayStreak | database.py:458-476 | no previous day starts at 1; the same day keeps the streak; the next day extends it; a longer gap restarts at 1 |
| GamificationStore.StreakRulesAgree | database.py:458-476 | with a stored streak of at least 1, the database rule counted in days agrees with the agent's rule counted in seconds |
| GamificationStore.BadgeUnion | database.py:479-483 | the merged badges are the union of the old and new ones |
| GamificationStore.UpdateGamificationData | database.py:419-499 | the written row adds the points, counts the quiz and any perfect score, recomputes level and streak, merges the badges, and leaves them alone when none are new; a failure writes nothing |
| LevelNames.RankName | utils/database.py:176-189 | levels 1..6 name their rank, anything else is Rookie |
| LevelNames.RankLevel | utils/database.py:203-213 | a rank name gives its level 1..6, anything else level 1 |
| LevelNames.NameRoundTrip | utils/database.py:176-213 | the name of a rank's level is that rank |
| LevelNames.LevelRoundTrip | utils/database.py:176-213 | the level of a level's name is that level |
| LevelNames.GetGamification | utils/database.py:167-197 | none exactly for a missing row; NULL counters read as 0 and NULL badges as none; a stored level 1..6 is named by its rank; NULL, 0 and any other number read as Rookie Detective |
| LevelNames.StoredLevel | utils/database.py:201-213 | a missing level writes 1; a rank name writes its level 1..6 and any other name 1; a number is written as given |
| LevelNames.UpdateGamification | utils/database.py:199-245 | without a row nothing is written; otherwise every counter is the data's value or 0 when the key is missing, the level is the stored conversion, and the badges are the data's or none |
| LevelNames.ReadWriteRead | utils/database.py:167-245 | reading a row, writing the view back and reading again gives exactly the same view |
| Orchestrator.Baseline | agents/orchestrator.py:159-165 | beginner under 10, intermediate from 10 to 13, advanced from 14 |
| Orchestrator.Recent | agents/orchestrator.py:169-170 | the last five quizzes, or all of them when fewer |
| Orchestrator.DetermineDifficulty | agents/orchestrator.py:153-185 | no history keeps the age baseline; a recent average above 0.9 steps up and one below 0.6 steps down, capped at the ends; otherwise the baseline |
| Orchestrator.WithinOneStep | agents/orchestrator.py:172-183 | the difficulty is never more than one step from the baseline |
| Orchestrator.OnlyRecentCount | agents/orchestrator.py:169-170 | quizzes older than the last five never affect the choice |
| Orchestrator.SumRatiosBounds | agents/orchestrator.py:172-175 | valid scores give a ratio sum between 0 and the number of quizzes |
| Personalization.MasteryOf | agents/personalization_agent.py:81-88 | expert from 0.9, proficient from 0.7, learning from 0.5, novice below, each band exactly |
| Personalization.ConceptQuizzesMembers | agents/personalization_agent.py:72-75 | the attempts kept are exactly those on the concept |
| Personalization.ConceptQuizzesLast | agents/personalization_agent.py:94 | the last attempt kept is an entry of the history |
| Personalization.AnalyzeConceptPerformance | agents/personalization_agent.py:66-95 | no attempts gives 0 attempts, no average and novice; otherwise the attempt count, the mean score ratio, its mastery band and the last attempt's ratio |
| Personalization.LastAttemptIsLatest | agents/personalization_agent.py:94 | the last attempt is the latest history entry on that concept |
| Personalization.OrderMatchesTotals | agents/personalization_agent.py:106-108 | the category order lists each totalled category exactly once |
| Personalization.TotalsAddUp | agents/personalization_agent.py:103-108 | the per-category totals add up to the total spent |
| Personalization.TopOf | agents/personalization_agent.py:113 | the top category is a maximal one, the first such in order |
| Personalization.Tally | agents/personalization_agent.py:102-108 | the loop's per-category totals, first-appearance order and total spent are those of the whole transaction list |
| Personalization.AnalyzeSpending | agents/personalization_agent.py:97-115 | no transactions gives the empty result; otherwise the total of absolute amounts, the per-category distribution adding up to it, the first maximal category and the count |
| QuizGeneration.QuestionCount | agents/quiz_generation_agent.py:189-196 | 3 questions under age 10, 4 from 10 to 12, 5 from 13 |
| QuizGeneration.QuestionCountMonotone | agents/quiz_generation_agent.py:189-196 | older learners never get fewer questions |
| QuizGeneration.StoryIdOf | agents/quiz_generation_agent.py:89 | the case id, else the story id, else "default" |
| QuizGeneration.QuestionIdsDistinct | agents/quiz_generation_agent.py:89-92 | two positions never share a question id |
| QuizGeneration.BuildQuestions | agents/quiz_generation_agent.py:89-104 | one question per entry, in order, numbered from 1, with distinct ids |
| ContentGeneration.SplitStory | agents/content_generation_agent.py:73-75 | the title has no '#' and no newline and is stripped; a one-line reply is all content, unstripped |
| ContentGeneration.StoryTitleFromFirstLine | agents/content_generation_agent.py:73-74 | the title is the first line of the stripped reply with "Title:" and "#" removed, stripped |
| ContentGeneration.StoryContentAfterFirstLine | agents/content_generation_agent.py:73-75 | for a reply of several lines the content is the stripped text after the first line break |
| ContentGeneration.RemoveAllKeepsAbsent | agents/content_generation_agent.py:74 | removing a pattern never introduces a character that was absent |
| ContentGeneration.StoryId | agents/content_generation_agent.py:78 | the id joins the concept and the user, or "default" without a profile |
| ContentGeneration.ExtractPersonalizationElements | agents/content_generation_agent.py:160-171 | at most five elements, as many as there are candidates up to five, taken from the front in candidate order |
| FeedbackStore.SelectMembers | utils/feedback_processor.py:34-46 | a selection holds exactly the accepted entries and is no longer than the list |
| FeedbackStore.SumRatingsBounds | utils/feedback_processor.py:54-57 | ratings of 1..5 sum to between n and 5n |
| FeedbackStore.CountsBounded | utils/feedback_processor.py:59-66 | the three difficulty counts never exceed the number of entries |
| FeedbackStore.FeedbackProcessor.constructor | utils/feedback_processor.py:12-22 | the processor holds what was loaded |
| FeedbackStore.FeedbackProcessor.AddFeedback | utils/feedback_processor.py:29-32 | one entry more, at the end |
| FeedbackStore.SelectInStoredOrder | utils/feedback_processor.py:34-46 | a selection lists the entries at the accepted positions, one each, in increasing position order |
| FeedbackStore.FeedbackProcessor.GetQuizFeedback | utils/feedback_processor.py:34-39 | exactly the entries of the quiz, in stored order and with their repetitions: the entries at the positions whose quiz id matches, positions increasing |
| FeedbackStore.FeedbackProcessor.GetUserFeedback | utils/feedback_processor.py:41-46 | exactly the entries of the user, in stored order and with their repetitions: the entries at the positions whose user id matches, positions increasing |
| FeedbackStore.FeedbackProcessor.GetConceptFeedback | utils/feedback_processor.py:48-52 | every entry, since the concept is not consulted |
| FeedbackStore.FeedbackProcessor.GetAverageRating | utils/feedback_processor.py:54-57 | 0 with no entries, otherwise the mean rating, which lies in 1..5 |
| FeedbackStore.FeedbackProcessor.GetDifficultyFeedback | utils/feedback_processor.py:59-66 | one count per difficulty answer, the three together at most the number of entries |
| FeedbackStore.AddedFeedbackIsQueried | utils/feedback_processor.py:29-39 | an addition appears at the end of the quiz queries it matches and leaves the others unchanged |
| Tracing.DetailsLine | utils/logging_utils.py:86-87 | the details line appears exactly when there are details |
| Tracing.QuoteFor | utils/logging_utils.py:87 | `repr` quotes with double quotes exactly when the text holds a single quote and no double quote |
| Tracing.ReprRoundTrip | utils/logging_utils.py:87 | the quoted, escaped text of a value reads back as that value, so the details text loses nothing |
| Tracing.UnescapeChar | utils/logging_utils.py:87 | each escaped character, whether copied, backslashed or written in hex, reads back as itself |
| Tracing.PlainTextRepr | utils/logging_utils.py:87 | text without quotes, backslashes or control characters is written in single quotes as it is |
| Tracing.ApostropheTextRepr | utils/logging_utils.py:87 | text with a single quote and no double quote is written in double quotes, the single quotes unescaped |
| Tracing.TraceText | utils/logging_utils.py:83-87 | a trace's text starts with its numbered step line and its action line |
| Tracing.SummaryGrows | utils/logging_utils.py:77-89 | logging one more step extends a non-empty summary by exactly that step, numbered one past the last |
| Tracing.NoTracesOnlyWhenEmpty | utils/logging_utils.py:79-80 | the placeholder text appears only for an empty trace list |
| Tracing.AppendTrace | utils/logging_utils.py:83-87 | the loop body appends exactly one trace's text |
| Tracing.NumberedLines | utils/logging_utils.py:82-87 | the loop writes every trace, numbered from 1 |
| Tracing.AgentTracer.constructor | utils/logging_utils.py:59-61 | a tracer starts empty |
| Tracing.AgentTracer.LogStep | utils/logging_utils.py:63-75 | one trace more, at the end, with empty details when none are given |
| Tracing.AgentTracer.GetTraceSummary | utils/logging_utils.py:77-89 | the summary of the traces, which is the placeholder exactly when there are none |
| Tracing.AgentTracer.ClearTraces | utils/logging_utils.py:91-93 | no traces remain |
| McpTables.DefaultProfile | mcp_server.py:70-79 | an unknown user gets a 10-year-old "New User" profile under their id |
| McpTables.TakeLimit | mcp_server.py:108 | a prefix of the list with the length of a Python slice, so a negative limit counts from the end |
| McpTables.McpServer.constructor | mcp_server.py:37-47 | the server starts with the sample users and empty tables |
| McpTables.McpServer.GetUserProfile | mcp_server.py:65-80 | the stored profile, or a default one that is stored; the other tables are unchanged |
| McpTables.McpServer.CreateUserProfile | mcp_server.py:82-93 | the profile is stored; gamification data is created only for a user without any |
| McpTables.McpServer.GetTransactions | mcp_server.py:95-108 | a known user with no transactions gets the drawn samples, which are stored; the result is the limited prefix |
| McpTables.McpServer.GetQuizHistory | mcp_server.py:110-114 | the user's entries, or none |
| McpTables.McpServer.SaveQuizResult | mcp_server.py:116-135 | that user's history gains the entry at its end; other histories are unchanged |
| McpTables.McpServer.GetGamificationData | mcp_server.py:137-143 | the stored record, or defaults that are stored |
| McpTables.McpServer.UpdateGamificationData | mcp_server.py:145-149 | only that user's record is replaced |
| McpTables.ProfileLookupIsStable | mcp_server.py:65-80 | two lookups return the same profile, and the second stores nothing new |
| McpTables.CreateKeepsProgress | mcp_server.py:82-93 | creating a profile never overwrites recorded progress |

## Left out

- Language-model calls are inputs: the classifier's JSON reply, the checker's text, rewritten content, generated stories and question lists. Prompts are not modelled.
- File, JSON and SQLite I/O are not modelled. Stores are fields or values; a read is an input; a write is the new state or a returned row. An I/O failure is a boolean input.
- Clocks, time stamps and the ids built from them are parameters. Random sample transactions are an input.
- The FastAPI layer, the dashboard and app UIs, the retrieval service and the team orchestrator are not modelled. Neither are scripts, logging to the console, nor the prompt builders.
- QuizFeedback, BiasAnalysis, AdminReview and ReviewAction are imported from `models` (agents/feedback_agent.py:9, agents/admin_review_agent.py:9) but are not defined in models/__init__.py; their definition is not part of this model, and their record types are reconstructed from how the agents use them.
- Text handling is ASCII. Lower and upper case, whitespace and `int()` cover ASCII letters, the common blanks and decimal digits only.
- FeedbackIntake.PercentText: `:.2%` truncates the last digit instead of rounding.
- FeedbackIntake.GenerateFeedbackInsights: does not round the average to 2 places or the percentage to 1, which the source does only on output.
- AdminReview.StatisticsOf: does not round the accuracy to 2 places.
- AdminReview.ReviewStore.ProcessAdminReview: whether the knowledge-base call raises is a boolean input.
- Gamification.CheckNewBadges: each badge's criterion is a given boolean per badge, because the source evaluates a configured expression with `eval`.
- GamificationStore.UpdateGamificationData: keeps the first occurrence of each badge. The source builds a set and lists it in an unspecified order, so only the set of badges is claimed.
- McpTables.TakeLimit: a negative limit keeps all but that many transactions, as Python's slice does. So the result is not bounded by the limit in that case.
- Orchestrator.DetermineDifficulty: requires every recent quiz to have questions. The source would divide by zero on an empty quiz.
- Personalization.AnalyzeConceptPerformance: requires every attempt on the concept to have questions. The source would divide by zero on an empty quiz.
- Tracing.Repr: characters above U+00FF are copied as they are. Python writes those it does not count as printable as `\u` or `\U` escapes, and that needs the Unicode database. Details values other than text, such as numbers or nested lists, are not modelled.
- Models.OverrideGiven: an override dictionary that holds only unknown keys is truthy in the source but cannot be written in the model, whose override has only the four known fields.
- Text.ParseInt: `int()` also accepts underscores between digits; the model reads an optional sign and decimal digits only.
- LevelNames.UpdateGamification: does not model `last_activity_date`, set to the current date, nor the False returned when the database raises.
- Floating-point rounding is not modelled. Scores and amounts are exact reals.
