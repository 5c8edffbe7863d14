/** The feedback intake of agents/feedback_agent.py: attaching a fairness
    analysis to fresh feedback, the escalation rules that decide whether a
    moderator must look at it, the knowledge-base refresh they trigger, and
    the aggregate insights over many feedback records. The language-model
    replies are inputs. */
module FeedbackIntake {
  import opened Wrappers
  import opened Models
  import opened Text
  import AdminReview
  import Fractions

  // ---------------------------------------------------------------------------
  // Collecting feedback

  /** The JSON object the classifier replied with; every key may be missing. */
  datatype RawAnalysis = RawAnalysis(
    hasBias: Option<bool>,
    biasTypes: Option<seq<string>>,
    severity: Option<string>,
    specificIssues: Option<seq<string>>,
    recommendations: Option<seq<string>>,
    confidenceScore: Option<real>)

  const FailurePrefix := "AI analysis failed: "

  /** `analyze_bias`: the classifier's reply with its defaults filled in, or,
      when the call or the decoding raised with message `e`, the fallback
      analysis that asks for a human. */
  function AnalyzeBias(reply: Result<RawAnalysis, string>, now: int): (b: BiasAnalysis)
    ensures reply.Err? ==>
              !b.hasBias && b.biasTypes == [] && b.severity == "low" && b.confidenceScore == 0.0
              && |b.specificIssues| == 1 && StartsWith(b.specificIssues[0], FailurePrefix)
              && b.recommendations == ["Manual review recommended"]
    ensures reply.Ok? ==> (reply.value.hasBias.Some? ==> b.hasBias == reply.value.hasBias.value)
                          && (reply.value.hasBias.None? ==> !b.hasBias)
    ensures reply.Ok? ==> (reply.value.biasTypes.Some? ==> b.biasTypes == reply.value.biasTypes.value)
                          && (reply.value.biasTypes.None? ==> b.biasTypes == [])
    ensures reply.Ok? ==> (reply.value.severity.Some? ==> b.severity == reply.value.severity.value)
                          && (reply.value.severity.None? ==> b.severity == "low")
    ensures reply.Ok? ==> (reply.value.specificIssues.Some? ==> b.specificIssues == reply.value.specificIssues.value)
                          && (reply.value.specificIssues.None? ==> b.specificIssues == [])
    ensures reply.Ok? ==> (reply.value.recommendations.Some? ==> b.recommendations == reply.value.recommendations.value)
                          && (reply.value.recommendations.None? ==> b.recommendations == [])
    ensures reply.Ok? ==> (reply.value.confidenceScore.Some? ==> b.confidenceScore == reply.value.confidenceScore.value)
                          && (reply.value.confidenceScore.None? ==> b.confidenceScore == 0.5)
    ensures b.analyzedAt == now
  {
    match reply
    case Err(e) =>
      BiasAnalysis(false, [], "low", [FailurePrefix + e], ["Manual review recommended"], 0.0, now)
    case Ok(raw) =>
      BiasAnalysis(raw.hasBias.GetOr(false), raw.biasTypes.GetOr([]), raw.severity.GetOr("low"),
                   raw.specificIssues.GetOr([]), raw.recommendations.GetOr([]),
                   raw.confidenceScore.GetOr(0.5), now)
  }

  /** Python truthiness of an optional string. */
  predicate Truthy(s: Option<string>) {
    s.Some? && s.value != ""
  }

  /** `collect_feedback`: the record, with an analysis attached exactly when
      there are comments. `stamp` is the text of the creation time stamp. */
  function CollectFeedback(quizId: string, userId: string, concept: string, rating: int,
                           comments: Option<string>, difficultyPerception: Option<string>,
                           relevanceScore: Option<int>, stamp: string,
                           reply: Result<RawAnalysis, string>, now: int): (f: QuizFeedback)
    ensures f.biasAnalysis.Some? <==> Truthy(comments)
    ensures f.biasAnalysis.Some? ==> f.biasAnalysis.value == AnalyzeBias(reply, now)
    ensures f.quizId == quizId && f.userId == userId && f.concept == concept && f.rating == rating
    ensures f.comments == comments && f.difficultyPerception == difficultyPerception
    ensures f.relevanceScore == relevanceScore && !f.processed
    ensures StartsWith(f.feedbackId, "feedback_" + quizId + "_")
  {
    var id := "feedback_" + quizId + "_" + stamp;
    assert id[..|"feedback_" + quizId + "_"|] == "feedback_" + quizId + "_";
    QuizFeedback(id, quizId, userId, concept, rating, comments, difficultyPerception, relevanceScore,
                 if Truthy(comments) then Some(AnalyzeBias(reply, now)) else None, now, false)
  }

  // ---------------------------------------------------------------------------
  // The knowledge base

  datatype KbDocument = KbDocument(
    content: string,
    concept: string,
    biasCorrected: bool,
    biasTypesAddressed: seq<string>,
    updatedAt: int)

  /** The documents the retrieval service holds, as far as this agent adds to them. */
  class KnowledgeBase {
    var documents: seq<KbDocument>

    constructor ()
      ensures documents == []
    {
      documents := [];
    }

    /** `update_knowledge_base_for_bias`: `generated` is the rewritten
        content, or None when generating or storing it failed. Failures are
        swallowed, so the call always returns normally. */
    method UpdateForBias(concept: string, analysis: BiasAnalysis, generated: Option<string>, now: int)
      modifies this
      ensures generated.Some? ==>
                documents == old(documents) + [KbDocument(generated.value, concept, true, analysis.biasTypes, now)]
      ensures generated.None? ==> documents == old(documents)
    {
      if generated.Some? {
        documents := documents + [KbDocument(generated.value, concept, true, analysis.biasTypes, now)];
      }
    }
  }

  // ---------------------------------------------------------------------------
  // Escalation rules

  const ConcerningKeywords: seq<string> :=
    ["biased", "offensive", "inappropriate", "stereotype", "racist", "sexist", "discriminat", "exclusive", "unfair"]

  predicate LowRating(f: QuizFeedback) {
    f.rating <= 2
  }

  /** A detected bias of high or medium severity. */
  predicate SevereBias(f: QuizFeedback) {
    f.biasAnalysis.Some? && f.biasAnalysis.value.hasBias
    && (f.biasAnalysis.value.severity == "high" || f.biasAnalysis.value.severity == "medium")
  }

  /** No bias found, but with a confidence under 0.6. */
  predicate LowConfidence(f: QuizFeedback) {
    f.biasAnalysis.Some? && !f.biasAnalysis.value.hasBias && f.biasAnalysis.value.confidenceScore < 0.6
  }

  predicate DifficultyMismatch(f: QuizFeedback) {
    f.difficultyPerception == Some("too_easy") || f.difficultyPerception == Some("too_hard")
  }

  /** `relevance_score and relevance_score <= 2`: zero is falsy. */
  predicate LowRelevance(f: QuizFeedback) {
    f.relevanceScore.Some? && f.relevanceScore.value != 0 && f.relevanceScore.value <= 2
  }

  /** The lower-cased comments contain one of the fixed keywords. */
  predicate HasConcerningKeyword(f: QuizFeedback) {
    Truthy(f.comments) && exists k :: 0 <= k < |ConcerningKeywords| && Contains(Lower(f.comments.value), ConcerningKeywords[k])
  }

  /** `f"{x:.2%}"`, truncated rather than rounded in the last digit. */
  function PercentText(x: real): string {
    var n := (x * 10000.0).Floor;
    var m := if n < 0 then -n else n;
    var frac := m % 100;
    (if n < 0 then "-" else "") + NatToString(m / 100) + "." + [DigitChar(frac / 10), DigitChar(frac % 10)] + "%"
  }

  function LowRatingReason(f: QuizFeedback): string {
    "Low rating detected: " + IntToString(f.rating) + "/5"
  }

  function BiasReason(f: QuizFeedback): string
    requires f.biasAnalysis.Some?
  {
    "AI detected " + f.biasAnalysis.value.severity + " severity bias: " + Join(f.biasAnalysis.value.biasTypes, ", ")
  }

  function LowConfidenceReason(f: QuizFeedback): string
    requires f.biasAnalysis.Some?
  {
    "Low AI confidence (" + PercentText(f.biasAnalysis.value.confidenceScore) + ") - potential missed bias"
  }

  const KeywordReason := "User feedback contains concerning keywords"

  /** Whether some rule asks for a moderator. */
  predicate RequiresReview(f: QuizFeedback) {
    LowRating(f) || SevereBias(f) || LowConfidence(f) || HasConcerningKeyword(f)
  }

  /** The priority that survives the rules: each rule overwrites the ones
      before it, except the keyword rule, which only fills an empty slot. */
  function FinalPriority(f: QuizFeedback): Option<string> {
    if LowConfidence(f) then Some("medium")
    else if SevereBias(f) then Some(if f.biasAnalysis.value.severity == "high" then "urgent" else "high")
    else if LowRating(f) then Some("high")
    else if HasConcerningKeyword(f) then Some("urgent")
    else None
  }

  /** The reason of the last rule that fired. */
  function FinalReason(f: QuizFeedback): Option<string> {
    if HasConcerningKeyword(f) then Some(KeywordReason)
    else if LowConfidence(f) then Some(LowConfidenceReason(f))
    else if SevereBias(f) then Some(BiasReason(f))
    else if LowRating(f) then Some(LowRatingReason(f))
    else None
  }

  /** The tags of the difficulty and relevance rules, which never ask for a moderator. */
  function DifficultyTags(f: QuizFeedback): seq<string> {
    (if DifficultyMismatch(f) then ["difficulty_adjustment_needed"] else [])
    + (if LowRelevance(f) then ["personalization_improvement_needed"] else [])
  }

  /** The tags of the rating, bias and confidence rules. */
  function ContentTags(f: QuizFeedback): seq<string> {
    (if LowRating(f) then ["flagged_for_review"] else [])
    + (if SevereBias(f) then ["urgent_bias_review", "knowledge_base_updated"] else [])
    + (if LowConfidence(f) then ["low_confidence_flagged"] else [])
  }

  /** The action tags the rules record, before any enqueue. */
  function RuleActions(f: QuizFeedback): seq<string> {
    ContentTags(f) + DifficultyTags(f)
    + (if HasConcerningKeyword(f) then ["concerning_keywords_detected"] else [])
  }

  /** The keyword rule runs last: the outcome of all rules is that of the
      others, with the keyword rule applied on top. */
  lemma KeywordRuleLast(f: QuizFeedback)
    ensures var g := f.(comments := None);
            var k := HasConcerningKeyword(f);
            RuleActions(f) == RuleActions(g) + (if k then ["concerning_keywords_detected"] else [])
            && RequiresReview(f) == (RequiresReview(g) || k)
            && FinalPriority(f) == (if k && FinalPriority(g).None? then Some("urgent") else FinalPriority(g))
            && FinalReason(f) == (if k then Some(KeywordReason) else FinalReason(g))
  {
    var g := f.(comments := None);
    SameRulesWithoutComments(f);
    KeywordRuleActions(f);
    KeywordRuleReason(f);
  }

  /** Every rule but the keyword rule ignores the comments. */
  lemma SameRulesWithoutComments(f: QuizFeedback)
    ensures var g := f.(comments := None);
            !HasConcerningKeyword(g)
            && LowRating(g) == LowRating(f) && SevereBias(g) == SevereBias(f) && LowConfidence(g) == LowConfidence(f)
            && DifficultyMismatch(g) == DifficultyMismatch(f) && LowRelevance(g) == LowRelevance(f)
  {
    var g := f.(comments := None);
    assert g.rating == f.rating && g.biasAnalysis == f.biasAnalysis;
    assert g.difficultyPerception == f.difficultyPerception && g.relevanceScore == f.relevanceScore;
  }

  lemma KeywordRuleActions(f: QuizFeedback)
    ensures RuleActions(f) == RuleActions(f.(comments := None))
                              + (if HasConcerningKeyword(f) then ["concerning_keywords_detected"] else [])
  {
    var g := f.(comments := None);
    SameRulesWithoutComments(f);
    assert ContentTags(g) == ContentTags(f);
    assert DifficultyTags(g) == DifficultyTags(f);
    assert RuleActions(g) == ContentTags(f) + DifficultyTags(f) + [];
  }

  lemma KeywordRuleReason(f: QuizFeedback)
    ensures FinalReason(f) == if HasConcerningKeyword(f) then Some(KeywordReason) else FinalReason(f.(comments := None))
  {
    var g := f.(comments := None);
    SameRulesWithoutComments(f);
    if f.biasAnalysis.Some? {
      assert g.biasAnalysis == f.biasAnalysis;
      assert BiasReason(g) == BiasReason(f) && LowConfidenceReason(g) == LowConfidenceReason(f);
    }
    assert g.rating == f.rating;
    assert LowRatingReason(g) == LowRatingReason(f);
  }

  datatype ProcessResult = ProcessResult(
    feedbackId: string,
    actionsTaken: seq<string>,
    requiresHumanReview: bool,
    reviewPriority: Option<string>,
    reviewReason: Option<string>,
    timestamp: int)

  /** A priority and a reason are set exactly when a review is required, so
      the "medium" and "Requires admin review" defaults of the enqueue call
      are never used. */
  lemma PriorityAndReasonIffReview(f: QuizFeedback)
    ensures FinalPriority(f).Some? <==> RequiresReview(f)
    ensures FinalReason(f).Some? <==> RequiresReview(f)
  {
  }

  /** The priority is one of the three the rules write. */
  lemma FinalPriorityRange(f: QuizFeedback)
    requires RequiresReview(f)
    ensures FinalPriority(f).value in {"urgent", "high", "medium"}
  {
  }

  /** Last writer wins: a low-confidence verdict demotes a low rating's
      "high" to "medium", although the rating alone would have been "high". */
  lemma LowConfidenceOverridesLowRating(f: QuizFeedback)
    requires LowRating(f) && LowConfidence(f)
    ensures FinalPriority(f) == Some("medium")
    ensures FinalPriority(f.(biasAnalysis := None)) == Some("high")
  {
    assert !HasConcerningKeyword(f.(biasAnalysis := None)) || HasConcerningKeyword(f.(biasAnalysis := None));
  }

  /** The keyword rule never changes a priority an earlier rule has set. */
  lemma KeywordRuleKeepsPriority(f: QuizFeedback)
    requires HasConcerningKeyword(f)
    ensures LowRating(f) || SevereBias(f) || LowConfidence(f) ==> FinalPriority(f) != Some("urgent") || SevereBias(f)
    ensures !(LowRating(f) || SevereBias(f) || LowConfidence(f)) ==> FinalPriority(f) == Some("urgent")
  {
  }

  /** The difficulty and relevance rules only add tags: changing those two
      answers never changes whether, how urgently or why a review is asked for. */
  lemma DifficultyAndRelevanceNeverEscalate(f: QuizFeedback, difficulty: Option<string>, relevance: Option<int>)
    ensures var g := f.(difficultyPerception := difficulty, relevanceScore := relevance);
            RequiresReview(g) == RequiresReview(f) && FinalPriority(g) == FinalPriority(f) && FinalReason(g) == FinalReason(f)
  {
  }

  /** A failed classification always lands in front of a moderator. */
  lemma FailedAnalysisTriggersReview(f: QuizFeedback, e: string, now: int)
    requires f.biasAnalysis == Some(AnalyzeBias(Err(e), now))
    ensures RequiresReview(f) && LowConfidence(f)
    ensures FinalPriority(f) == Some("medium")
  {
  }

  /** `any(keyword in comments.lower() for keyword in concerning_keywords)`. */
  method MentionsConcerningKeyword(comments: string) returns (found: bool)
    ensures found <==> exists k :: 0 <= k < |ConcerningKeywords| && Contains(Lower(comments), ConcerningKeywords[k])
  {
    var lowered := Lower(comments);
    found := false;
    var k := 0;
    while k < |ConcerningKeywords|
      invariant 0 <= k <= |ConcerningKeywords|
      invariant found <==> exists j :: 0 <= j < k && Contains(lowered, ConcerningKeywords[j])
    {
      if Contains(lowered, ConcerningKeywords[k]) {
        found := true;
      }
      k := k + 1;
    }
  }

  /** The first three rules of `process_feedback`: low rating, detected
      bias (which also refreshes the knowledge base) and low confidence.
      Their outcome is that of all the rules on the same feedback without
      comments, which only the keyword rule reads. */
  method RatingAndBiasRules(f: QuizFeedback, kb: KnowledgeBase, generated: Option<string>, now: int)
    returns (actions: seq<string>, requiresReview: bool, priority: Option<string>, reason: Option<string>)
    modifies kb
    ensures var g := f.(comments := None);
            actions == ContentTags(f)
            && requiresReview == RequiresReview(g) && priority == FinalPriority(g) && reason == FinalReason(g)
    ensures SevereBias(f) && generated.Some? ==>
              kb.documents == old(kb.documents) + [KbDocument(generated.value, f.concept, true, f.biasAnalysis.value.biasTypes, now)]
    ensures !(SevereBias(f) && generated.Some?) ==> kb.documents == old(kb.documents)
  {
    actions := [];
    requiresReview := false;
    priority := None;
    reason := None;

    if f.rating <= 2 {
      actions := actions + ["flagged_for_review"];
      requiresReview := true;
      priority := Some("high");
      reason := Some(LowRatingReason(f));
    }

    if f.biasAnalysis.Some? && f.biasAnalysis.value.hasBias {
      var severity := f.biasAnalysis.value.severity;
      if severity == "high" || severity == "medium" {
        actions := actions + ["urgent_bias_review"];
        kb.UpdateForBias(f.concept, f.biasAnalysis.value, generated, now);
        actions := actions + ["knowledge_base_updated"];
        requiresReview := true;
        priority := Some(if severity == "high" then "urgent" else "high");
        reason := Some(BiasReason(f));
      }
    }

    if f.biasAnalysis.Some? && !f.biasAnalysis.value.hasBias {
      if f.biasAnalysis.value.confidenceScore < 0.6 {
        requiresReview := true;
        priority := Some("medium");
        reason := Some(LowConfidenceReason(f));
        actions := actions + ["low_confidence_flagged"];
      }
    }
  }

  /** All six rules of `process_feedback`, in their order. */
  method ApplyRules(f: QuizFeedback, kb: KnowledgeBase, generated: Option<string>, now: int)
    returns (actions: seq<string>, requiresReview: bool, priority: Option<string>, reason: Option<string>)
    modifies kb
    ensures actions == RuleActions(f) && requiresReview == RequiresReview(f)
    ensures priority == FinalPriority(f) && reason == FinalReason(f)
    ensures SevereBias(f) && generated.Some? ==>
              kb.documents == old(kb.documents) + [KbDocument(generated.value, f.concept, true, f.biasAnalysis.value.biasTypes, now)]
    ensures !(SevereBias(f) && generated.Some?) ==> kb.documents == old(kb.documents)
  {
    actions, requiresReview, priority, reason := RatingAndBiasRules(f, kb, generated, now);
    actions := DifficultyRules(f, actions);
    actions, requiresReview, priority, reason := KeywordRule(f, actions, requiresReview, priority, reason);
    KeywordRuleLast(f);
  }

  /** The difficulty and relevance rules: two tags, appended in order. */
  method DifficultyRules(f: QuizFeedback, actions: seq<string>) returns (actions': seq<string>)
    ensures actions' == actions + DifficultyTags(f)
  {
    actions' := actions;
    if f.difficultyPerception == Some("too_easy") || f.difficultyPerception == Some("too_hard") {
      actions' := actions' + ["difficulty_adjustment_needed"];
    }
    if f.relevanceScore.Some? && f.relevanceScore.value != 0 && f.relevanceScore.value <= 2 {
      actions' := actions' + ["personalization_improvement_needed"];
    }
  }

  /** The keyword rule: a concerning keyword asks for a review, sets its
      reason, and sets the priority only when no earlier rule did. */
  method KeywordRule(f: QuizFeedback, actions: seq<string>, requiresReview: bool, priority: Option<string>, reason: Option<string>)
    returns (actions': seq<string>, requiresReview': bool, priority': Option<string>, reason': Option<string>)
    ensures var k := HasConcerningKeyword(f);
            actions' == actions + (if k then ["concerning_keywords_detected"] else [])
            && requiresReview' == (requiresReview || k)
            && priority' == (if k && priority.None? then Some("urgent") else priority)
            && reason' == (if k then Some(KeywordReason) else reason)
  {
    actions', requiresReview', priority', reason' := actions, requiresReview, priority, reason;
    if Truthy(f.comments) {
      var found := MentionsConcerningKeyword(f.comments.value);
      if found {
        requiresReview' := true;
        priority' := if priority'.None? then Some("urgent") else priority';
        reason' := Some(KeywordReason);
        actions' := actions' + ["concerning_keywords_detected"];
      }
    }
  }

  /** `process_feedback`. `agent` is the optional admin review agent,
      `reviewId` the id it will give a new item, `generated` the rewritten
      content for the knowledge-base update. */
  method ProcessFeedback(f: QuizFeedback, agent: AdminReview.ReviewStore?, kb: KnowledgeBase,
                         generated: Option<string>, reviewId: string, now: int)
    returns (r: ProcessResult)
    requires agent != null ==> agent.Valid()
    requires agent != null ==> forall i :: 0 <= i < |agent.queue| ==> agent.queue[i].reviewId != reviewId
    modifies agent, kb
    ensures r.feedbackId == f.feedbackId && r.timestamp == now
    ensures r.requiresHumanReview == RequiresReview(f)
    ensures r.reviewPriority == FinalPriority(f) && r.reviewReason == FinalReason(f)
    ensures var enqueued := RequiresReview(f) && agent != null;
            r.actionsTaken == RuleActions(f) + (if enqueued then ["added_to_admin_queue"] else [])
    ensures agent != null ==> agent.Valid() && agent.history == old(agent.history)
    ensures agent != null && RequiresReview(f) ==>
              agent.queue == AdminReview.SortByRank(old(agent.queue) +
                [AdminReview.NewItem(f, FinalReason(f).value, FinalPriority(f).value, reviewId, now)])
    ensures agent != null && !RequiresReview(f) ==> agent.queue == old(agent.queue)
    ensures SevereBias(f) && generated.Some? ==>
              kb.documents == old(kb.documents) + [KbDocument(generated.value, f.concept, true, f.biasAnalysis.value.biasTypes, now)]
    ensures !(SevereBias(f) && generated.Some?) ==> kb.documents == old(kb.documents)
  {
    var actions, requiresReview, priority, reason := ApplyRules(f, kb, generated, now);
    PriorityAndReasonIffReview(f);
    if requiresReview && agent != null {
      var id := agent.AddToReviewQueue(f, reason.GetOr("Requires admin review"), priority.GetOr("medium"), reviewId, now);
      actions := actions + ["added_to_admin_queue"];
    }
    r := ProcessResult(f.feedbackId, actions, requiresReview, priority, reason, now);
  }

  // ---------------------------------------------------------------------------
  // Insights

  function Sum(xs: seq<int>): int {
    if xs == [] then 0 else Sum(xs[..|xs| - 1]) + xs[|xs| - 1]
  }

  function Concepts(fs: seq<QuizFeedback>): seq<string> {
    if fs == [] then [] else Concepts(fs[..|fs| - 1]) + [fs[|fs| - 1].concept]
  }

  /** The distinct concepts, in order of first appearance. */
  function FirstOccurrences(cs: seq<string>): (r: seq<string>)
    ensures forall c :: c in r <==> c in cs
    ensures forall i, j :: 0 <= i < j < |r| ==> r[i] != r[j]
  {
    if cs == [] then []
    else
      var p := FirstOccurrences(cs[..|cs| - 1]);
      assert cs == cs[..|cs| - 1] + [cs[|cs| - 1]];
      if cs[|cs| - 1] in p then p else p + [cs[|cs| - 1]]
  }

  /** The ratings given for concept `c`, in order. */
  function RatingsOf(fs: seq<QuizFeedback>, c: string): seq<int> {
    if fs == [] then []
    else RatingsOf(fs[..|fs| - 1], c) + (if fs[|fs| - 1].concept == c then [fs[|fs| - 1].rating] else [])
  }

  function Ratings(fs: seq<QuizFeedback>): seq<int> {
    if fs == [] then [] else Ratings(fs[..|fs| - 1]) + [fs[|fs| - 1].rating]
  }

  function CountBias(fs: seq<QuizFeedback>): nat {
    if fs == [] then 0
    else CountBias(fs[..|fs| - 1])
         + (if fs[|fs| - 1].biasAnalysis.Some? && fs[|fs| - 1].biasAnalysis.value.hasBias then 1 else 0)
  }

  function CountPerception(fs: seq<QuizFeedback>, p: string): nat {
    if fs == [] then 0
    else CountPerception(fs[..|fs| - 1], p) + (if fs[|fs| - 1].difficultyPerception == Some(p) then 1 else 0)
  }

  lemma {:induction false} RatingsOfNonEmpty(fs: seq<QuizFeedback>, c: string)
    requires c in Concepts(fs)
    ensures |RatingsOf(fs, c)| > 0
  {
    if fs[|fs| - 1].concept != c {
      RatingsOfNonEmpty(fs[..|fs| - 1], c);
    }
  }

  datatype ConceptScore = ConceptScore(concept: string, averageRating: real, feedbackCount: nat)

  datatype Insights =
    | NoFeedback(message: string)
    | Report(totalFeedbacks: nat, averageRating: real, biasDetectedCount: nat, biasPercentage: real,
             tooEasy: nat, justRight: nat, tooHard: nat,
             conceptsNeedingImprovement: seq<ConceptScore>, overallHealth: string)

  function Average(xs: seq<int>): real
    requires |xs| > 0
  {
    (Sum(xs) as real) / (|xs| as real)
  }

  /** The entry concept `c` contributes: its average and count when the
      average is under 3.5, nothing otherwise. */
  function NeedingEntry(fs: seq<QuizFeedback>, c: string): seq<ConceptScore> {
    var rs := RatingsOf(fs, c);
    if |rs| > 0 && Average(rs) < 3.5 then [ConceptScore(c, Average(rs), |rs|)] else []
  }

  /** The concepts in `order` whose average rating is under 3.5, in that order. */
  function Needing(fs: seq<QuizFeedback>, order: seq<string>): seq<ConceptScore> {
    if order == [] then [] else Needing(fs, order[..|order| - 1]) + NeedingEntry(fs, order[|order| - 1])
  }

  lemma {:induction false} NeedingMembers(fs: seq<QuizFeedback>, order: seq<string>, c: string)
    ensures (exists s :: s in Needing(fs, order) && s.concept == c) <==>
            (c in order && |RatingsOf(fs, c)| > 0 && Average(RatingsOf(fs, c)) < 3.5)
  {
    if order != [] {
      var init := order[..|order| - 1];
      NeedingMembers(fs, init, c);
      assert order == init + [order[|order| - 1]];
      assert c in order <==> c in init || c == order[|order| - 1];
    }
  }

  /** Exactly the concepts whose average rating is under 3.5 need improvement. */
  lemma NeedingImprovementExactly(fs: seq<QuizFeedback>, c: string)
    ensures var order := FirstOccurrences(Concepts(fs));
            (exists s :: s in Needing(fs, order) && s.concept == c) <==>
            (c in Concepts(fs) && |RatingsOf(fs, c)| > 0 && Average(RatingsOf(fs, c)) < 3.5)
  {
    NeedingMembers(fs, FirstOccurrences(Concepts(fs)), c);
  }

  /** `(part / whole) * 100`. */
  function Percentage(part: nat, whole: nat): real
    requires whole > 0
  {
    (part as real) / (whole as real) * 100.0
  }

  /** The report for a non-empty list of feedback. */
  function ReportOf(fs: seq<QuizFeedback>): Insights
    requires |fs| > 0
  {
    var total := |fs|;
    assert |Ratings(fs)| == total by { RatingsLength(fs); }
    var avg := Average(Ratings(fs));
    var bias := CountBias(fs);
    Report(total, avg, bias, Percentage(bias, total),
           CountPerception(fs, "too_easy"), CountPerception(fs, "just_right"), CountPerception(fs, "too_hard"),
           Needing(fs, FirstOccurrences(Concepts(fs))),
           if avg >= 4.0 && bias == 0 then "good" else "needs_attention")
  }

  lemma {:induction false} RatingsLength(fs: seq<QuizFeedback>)
    ensures |Ratings(fs)| == |fs|
  {
    if fs != [] {
      RatingsLength(fs[..|fs| - 1]);
    }
  }

  lemma {:induction false} CountBiasBounded(fs: seq<QuizFeedback>)
    ensures CountBias(fs) <= |fs|
  {
    if fs != [] {
      CountBiasBounded(fs[..|fs| - 1]);
    }
  }

  /** The bias percentage is a percentage; health is "good" exactly when the
      average is at least 4 and no bias was found. */
  lemma ReportBounds(fs: seq<QuizFeedback>)
    requires |fs| > 0
    ensures var r := ReportOf(fs);
            0.0 <= r.biasPercentage <= 100.0
            && (r.overallHealth == "good" <==> r.averageRating >= 4.0 && r.biasDetectedCount == 0)
            && r.tooEasy + r.justRight + r.tooHard <= r.totalFeedbacks
  {
    CountBiasBounded(fs);
    PerceptionsBounded(fs);
    Fractions.PercentBounds(CountBias(fs), |fs|);
  }

  lemma {:induction false} PerceptionsBounded(fs: seq<QuizFeedback>)
    ensures CountPerception(fs, "too_easy") + CountPerception(fs, "just_right") + CountPerception(fs, "too_hard") <= |fs|
  {
    if fs != [] {
      PerceptionsBounded(fs[..|fs| - 1]);
    }
  }

  lemma GroupStep(fs: seq<QuizFeedback>, i: nat)
    requires i < |fs|
    ensures Concepts(fs[..i + 1]) == Concepts(fs[..i]) + [fs[i].concept]
    ensures forall c :: RatingsOf(fs[..i + 1], c) == RatingsOf(fs[..i], c) + (if fs[i].concept == c then [fs[i].rating] else [])
  {
    assert fs[..i + 1][..i] == fs[..i];
  }

  lemma {:induction false} RatingsOfAbsent(fs: seq<QuizFeedback>, c: string)
    requires c !in Concepts(fs)
    ensures RatingsOf(fs, c) == []
  {
    if fs != [] {
      RatingsOfAbsent(fs[..|fs| - 1], c);
    }
  }

  lemma FirstOccurrencesStep(cs: seq<string>, x: string)
    ensures FirstOccurrences(cs + [x]) == if x in FirstOccurrences(cs) then FirstOccurrences(cs) else FirstOccurrences(cs) + [x]
  {
    assert (cs + [x])[..|cs + [x]| - 1] == cs;
  }

  /** Adding feedback `i` to its concept's group keeps every group equal to
      the ratings seen so far for that concept. */
  lemma RatingsMapStep(fs: seq<QuizFeedback>, i: nat, ratings: map<string, seq<int>>)
    requires i < |fs|
    requires forall c :: c in ratings <==> c in Concepts(fs[..i])
    requires forall c :: c in ratings ==> ratings[c] == RatingsOf(fs[..i], c)
    ensures var c := fs[i].concept;
            var updated := ratings[c := (if c in ratings then ratings[c] else []) + [fs[i].rating]];
            forall d :: d in updated ==> updated[d] == RatingsOf(fs[..i + 1], d)
  {
    var c := fs[i].concept;
    GroupStep(fs, i);
    if c !in ratings {
      RatingsOfAbsent(fs[..i], c);
    }
  }

  /** `order` lists the concepts of `fs` by first appearance, and `ratings`
      maps exactly those concepts to their ratings in feedback order. */
  ghost predicate GroupedBy(fs: seq<QuizFeedback>, order: seq<string>, ratings: map<string, seq<int>>) {
    order == FirstOccurrences(Concepts(fs))
    && (forall c :: c in ratings <==> c in order)
    && (forall c :: c in ratings ==> ratings[c] == RatingsOf(fs, c))
  }

  /** One turn of the grouping loop keeps its invariant. */
  lemma GroupingStep(fs: seq<QuizFeedback>, i: nat, order: seq<string>, ratings: map<string, seq<int>>,
                     order': seq<string>, ratings': map<string, seq<int>>)
    requires i < |fs| && GroupedBy(fs[..i], order, ratings)
    requires order' == if fs[i].concept in ratings then order else order + [fs[i].concept]
    requires ratings' == ratings[fs[i].concept := (if fs[i].concept in ratings then ratings[fs[i].concept] else []) + [fs[i].rating]]
    ensures GroupedBy(fs[..i + 1], order', ratings')
  {
    var c := fs[i].concept;
    assert order' == FirstOccurrences(Concepts(fs[..i + 1])) by {
      GroupStep(fs, i);
      FirstOccurrencesStep(Concepts(fs[..i]), c);
      assert c in ratings <==> c in FirstOccurrences(Concepts(fs[..i]));
    }
    assert forall d :: d in ratings' <==> d in order' by {
      forall d ensures d in ratings' <==> d in order' {
        assert d in ratings' <==> d in ratings || d == c;
        assert d in order' <==> d in order || d == c;
      }
    }
    assert forall d :: d in ratings' ==> ratings'[d] == RatingsOf(fs[..i + 1], d) by {
      RatingsMapStep(fs, i, ratings);
    }
  }

  /** The first loop of `generate_feedback_insights`: the ratings grouped
      by concept in a dictionary whose keys keep their order of insertion. */
  method GroupRatings(fs: seq<QuizFeedback>) returns (order: seq<string>, ratings: map<string, seq<int>>)
    ensures GroupedBy(fs, order, ratings)
  {
    order := [];
    ratings := map[];
    var i := 0;
    while i < |fs|
      invariant 0 <= i <= |fs|
      invariant GroupedBy(fs[..i], order, ratings)
    {
      var f := fs[i];
      ghost var order0, ratings0 := order, ratings;
      if f.concept !in ratings {
        order := order + [f.concept];
        ratings := ratings[f.concept := []];
      }
      ratings := ratings[f.concept := ratings[f.concept] + [f.rating]];
      GroupingStep(fs, i, order0, ratings0, order, ratings);
      i := i + 1;
    }
    assert fs[..|fs|] == fs;
  }

  /** The second loop: the groups whose average is under 3.5, in key order. */
  method SelectNeeding(fs: seq<QuizFeedback>, order: seq<string>, ratings: map<string, seq<int>>)
    returns (needing: seq<ConceptScore>)
    requires forall c :: c in order ==> c in ratings && ratings[c] == RatingsOf(fs, c) && |ratings[c]| > 0
    ensures needing == Needing(fs, order)
  {
    needing := [];
    var k := 0;
    while k < |order|
      invariant 0 <= k <= |order|
      invariant needing == Needing(fs, order[..k])
    {
      var c := order[k];
      var rs := ratings[c];
      var avg := (Sum(rs) as real) / (|rs| as real);
      if avg < 3.5 {
        needing := needing + [ConceptScore(c, avg, |rs|)];
      }
      assert order[..k + 1][..k] == order[..k];
      k := k + 1;
    }
    assert order[..|order|] == order;
  }

  /** The two loops together: group the ratings by concept, then keep the
      concepts whose average is under 3.5. */
  method ConceptsNeedingImprovement(fs: seq<QuizFeedback>) returns (needing: seq<ConceptScore>)
    ensures needing == Needing(fs, FirstOccurrences(Concepts(fs)))
  {
    var order, ratings := GroupRatings(fs);
    forall c | c in order ensures |ratings[c]| > 0 {
      RatingsOfNonEmpty(fs, c);
    }
    needing := SelectNeeding(fs, order, ratings);
  }

  /** `generate_feedback_insights`. */
  method GenerateFeedbackInsights(fs: seq<QuizFeedback>) returns (r: Insights)
    ensures fs == [] ==> r == NoFeedback("No feedback available")
    ensures fs != [] ==> r == ReportOf(fs)
  {
    if fs == [] {
      return NoFeedback("No feedback available");
    }
    var needing := ConceptsNeedingImprovement(fs);
    RatingsLength(fs);
    var avg := Average(Ratings(fs));
    var bias := CountBias(fs);
    r := Report(|fs|, avg, bias, Percentage(bias, |fs|),
                CountPerception(fs, "too_easy"), CountPerception(fs, "just_right"), CountPerception(fs, "too_hard"),
                needing, if avg >= 4.0 && bias == 0 then "good" else "needs_attention");
  }
}
