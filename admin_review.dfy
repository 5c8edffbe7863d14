/** The moderation queue of agents/admin_review_agent.py: a list of review
    items kept in priority order by a stable sort, the decision procedure a
    moderator drives, an append-only history and a statistics view. The two
    JSON files the agent reads and rewrites are the two sequence fields of
    `ReviewStore`. */
module AdminReview {
  import opened Wrappers
  import opened Models
  import Fractions
  import Text

  const Pending := "pending"
  const Reviewed := "reviewed"

  datatype ReviewItem = ReviewItem(
    reviewId: string,
    feedback: QuizFeedback,
    reason: string,
    priority: string,
    status: string,
    createdAt: int,
    reviewedAt: Option<int>,
    reviewedBy: Option<string>,
    adminDecision: Option<ReviewAction>,
    actionsTaken: Option<seq<string>>)

  /** A history record: the resolved item and the admin review beside it. */
  datatype HistoryEntry = HistoryEntry(item: ReviewItem, adminReview: AdminReviewRecord)

  datatype ReviewError =
    | NotFound(reviewId: string)
    | InvalidDecision(decision: string)
    | KnowledgeBaseUpdateFailed
    | ForcedUpdateFailed

  // ---------------------------------------------------------------------------
  // Priority order and the stable sort

  /** `priority_order.get(priority, 2)`. */
  function Rank(priority: string): (r: nat)
    ensures r <= 3
  {
    if priority == "urgent" then 0
    else if priority == "high" then 1
    else if priority == "medium" then 2
    else if priority == "low" then 3
    else 2
  }

  predicate SortedByRank(q: seq<ReviewItem>) {
    forall i, j :: 0 <= i < j < |q| ==> Rank(q[i].priority) <= Rank(q[j].priority)
  }

  /** The items of rank `k`, in queue order. */
  function WithRank(q: seq<ReviewItem>, k: nat): (r: seq<ReviewItem>)
    ensures |r| <= |q|
  {
    if q == [] then []
    else (if Rank(q[0].priority) == k then [q[0]] else []) + WithRank(q[1..], k)
  }

  /** `queue.sort(key=rank)`: Python's sort is stable, so with four keys the
      result is the rank-0 items, then the rank-1 items, and so on, each
      group in its original order. */
  function SortByRank(q: seq<ReviewItem>): seq<ReviewItem> {
    WithRank(q, 0) + WithRank(q, 1) + WithRank(q, 2) + WithRank(q, 3)
  }

  /** Of four consecutive groups, those numbered up to `r`. */
  function Front<T>(w0: seq<T>, w1: seq<T>, w2: seq<T>, w3: seq<T>, r: nat): seq<T> {
    if r == 0 then w0 else if r == 1 then w0 + w1 else if r == 2 then w0 + w1 + w2 else w0 + w1 + w2 + w3
  }

  /** Of four consecutive groups, those numbered above `r`. */
  function Back<T>(w0: seq<T>, w1: seq<T>, w2: seq<T>, w3: seq<T>, r: nat): seq<T> {
    if r == 0 then w1 + w2 + w3 else if r == 1 then w2 + w3 else if r == 2 then w3 else []
  }

  /** The groups of rank at most `r`, most urgent first. */
  function UpToRank(q: seq<ReviewItem>, r: nat): seq<ReviewItem> {
    Front(WithRank(q, 0), WithRank(q, 1), WithRank(q, 2), WithRank(q, 3), r)
  }

  /** The groups of rank above `r`, most urgent first. */
  function AboveRank(q: seq<ReviewItem>, r: nat): seq<ReviewItem> {
    Back(WithRank(q, 0), WithRank(q, 1), WithRank(q, 2), WithRank(q, 3), r)
  }

  lemma {:induction false} WithRankMembers(q: seq<ReviewItem>, k: nat)
    ensures forall x :: x in WithRank(q, k) <==> x in q && Rank(x.priority) == k
    ensures forall i :: 0 <= i < |WithRank(q, k)| ==> Rank(WithRank(q, k)[i].priority) == k
  {
    if q != [] {
      WithRankMembers(q[1..], k);
      assert q == [q[0]] + q[1..];
    }
  }

  lemma {:induction false} WithRankAppend(a: seq<ReviewItem>, b: seq<ReviewItem>, k: nat)
    ensures WithRank(a + b, k) == WithRank(a, k) + WithRank(b, k)
  {
    if a == [] {
      assert a + b == b;
    } else {
      var t := a[1..];
      WithRankAppend(t, b, k);
      assert (a + b)[0] == a[0];
      assert (a + b)[1..] == t + b;
      HeadOfGroups(a + b, k);
      var h := if Rank(a[0].priority) == k then [a[0]] else [];
      Text.ConcatAssoc(h, WithRank(t, k), WithRank(b, k));
    }
  }

  lemma {:induction false} WithRankOfWithRank(q: seq<ReviewItem>, j: nat, k: nat)
    ensures WithRank(WithRank(q, j), k) == if j == k then WithRank(q, k) else []
  {
    if q != [] {
      WithRankOfWithRank(q[1..], j, k);
      var head := if Rank(q[0].priority) == j then [q[0]] else [];
      WithRankAppend(head, WithRank(q[1..], j), k);
    }
  }

  lemma {:induction false} ConcatSorted(a: seq<ReviewItem>, b: seq<ReviewItem>, m: nat)
    requires SortedByRank(a) && SortedByRank(b)
    requires forall i :: 0 <= i < |a| ==> Rank(a[i].priority) <= m
    requires forall j :: 0 <= j < |b| ==> m <= Rank(b[j].priority)
    ensures SortedByRank(a + b)
  {
    var s := a + b;
    forall i, j | 0 <= i < j < |s| ensures Rank(s[i].priority) <= Rank(s[j].priority) {
      if j < |a| {
        assert s[i] == a[i] && s[j] == a[j];
      } else if i >= |a| {
        assert s[i] == b[i - |a|] && s[j] == b[j - |a|];
      } else {
        assert s[i] == a[i] && s[j] == b[j - |a|];
      }
    }
  }

  lemma SortByRankSorted(q: seq<ReviewItem>)
    ensures SortedByRank(SortByRank(q))
  {
    var w0, w1, w2, w3 := WithRank(q, 0), WithRank(q, 1), WithRank(q, 2), WithRank(q, 3);
    WithRankMembers(q, 0);
    WithRankMembers(q, 1);
    WithRankMembers(q, 2);
    WithRankMembers(q, 3);
    ConcatSorted(w0, w1, 0);
    assert forall i :: 0 <= i < |w0 + w1| ==> Rank((w0 + w1)[i].priority) <= 1;
    ConcatSorted(w0 + w1, w2, 1);
    assert forall i :: 0 <= i < |w0 + w1 + w2| ==> Rank((w0 + w1 + w2)[i].priority) <= 2;
    ConcatSorted(w0 + w1 + w2, w3, 2);
  }

  /** Unfolding each rank group of a non-empty queue at its head. */
  lemma HeadOfGroups(q: seq<ReviewItem>, k: nat)
    requires q != []
    ensures WithRank(q, k) == (if Rank(q[0].priority) == k then [q[0]] else []) + WithRank(q[1..], k)
  {
  }

  lemma MultisetHeadOfGroup(q: seq<ReviewItem>, k: nat)
    requires q != []
    ensures multiset(WithRank(q, k)) == (if Rank(q[0].priority) == k then multiset{q[0]} else multiset{}) + multiset(WithRank(q[1..], k))
  {
    HeadOfGroups(q, k);
  }

  lemma {:induction false} MultisetOfGroups(q: seq<ReviewItem>)
    ensures multiset(WithRank(q, 0)) + multiset(WithRank(q, 1)) + multiset(WithRank(q, 2))
            + multiset(WithRank(q, 3)) == multiset(q)
  {
    if q != [] {
      var h, t := q[0], q[1..];
      MultisetOfGroups(t);
      assert q == [h] + t;
      MultisetHeadOfGroup(q, 0);
      MultisetHeadOfGroup(q, 1);
      MultisetHeadOfGroup(q, 2);
      MultisetHeadOfGroup(q, 3);
      AddToOneGroup(multiset(WithRank(q, 0)), multiset(WithRank(q, 1)), multiset(WithRank(q, 2)), multiset(WithRank(q, 3)),
                    multiset(WithRank(t, 0)), multiset(WithRank(t, 1)), multiset(WithRank(t, 2)), multiset(WithRank(t, 3)),
                    h, Rank(h.priority));
    }
  }

  /** Adding an item to one of four groups adds it to their union. */
  lemma AddToOneGroup<T>(a0: multiset<T>, a1: multiset<T>, a2: multiset<T>, a3: multiset<T>,
                         b0: multiset<T>, b1: multiset<T>, b2: multiset<T>, b3: multiset<T>, h: T, r: nat)
    requires r <= 3
    requires a0 == (if r == 0 then multiset{h} else multiset{}) + b0
    requires a1 == (if r == 1 then multiset{h} else multiset{}) + b1
    requires a2 == (if r == 2 then multiset{h} else multiset{}) + b2
    requires a3 == (if r == 3 then multiset{h} else multiset{}) + b3
    ensures a0 + a1 + a2 + a3 == multiset{h} + (b0 + b1 + b2 + b3)
  {
  }

  lemma SortByRankPermutation(q: seq<ReviewItem>)
    ensures multiset(SortByRank(q)) == multiset(q)
  {
    MultisetOfGroups(q);
  }

  /** Sorting keeps the relative order of items of equal rank. */
  lemma SortByRankStable(q: seq<ReviewItem>, k: nat)
    ensures WithRank(SortByRank(q), k) == WithRank(q, k)
  {
    var w0, w1, w2, w3 := WithRank(q, 0), WithRank(q, 1), WithRank(q, 2), WithRank(q, 3);
    WithRankAppend(w0 + w1 + w2, w3, k);
    WithRankAppend(w0 + w1, w2, k);
    WithRankAppend(w0, w1, k);
    WithRankOfWithRank(q, 0, k);
    WithRankOfWithRank(q, 1, k);
    WithRankOfWithRank(q, 2, k);
    WithRankOfWithRank(q, 3, k);
    if k > 3 {
      WithRankEmpty(q, k);
    }
    PickBlock(WithRank(w0, k), WithRank(w1, k), WithRank(w2, k), WithRank(w3, k), WithRank(q, k), k);
  }

  /** Of four blocks, only the one numbered `k` is non-empty. */
  lemma PickBlock<T>(v0: seq<T>, v1: seq<T>, v2: seq<T>, v3: seq<T>, w: seq<T>, k: nat)
    requires v0 == (if k == 0 then w else []) && v1 == (if k == 1 then w else [])
    requires v2 == (if k == 2 then w else []) && v3 == (if k == 3 then w else [])
    requires k > 3 ==> w == []
    ensures v0 + v1 + v2 + v3 == w
  {
  }

  lemma TailSorted(q: seq<ReviewItem>)
    requires q != [] && SortedByRank(q)
    ensures SortedByRank(q[1..])
    ensures forall j :: 0 <= j < |q[1..]| ==> Rank(q[0].priority) <= Rank(q[1..][j].priority)
  {
    var t := q[1..];
    forall i, j | 0 <= i < j < |t| ensures Rank(t[i].priority) <= Rank(t[j].priority) {
      assert t[i] == q[i + 1] && t[j] == q[j + 1];
    }
  }

  /** A group of a rank no item has is empty. */
  lemma {:induction false} WithRankEmpty(q: seq<ReviewItem>, k: nat)
    requires forall j :: 0 <= j < |q| ==> Rank(q[j].priority) != k
    ensures WithRank(q, k) == []
  {
    if q != [] {
      WithRankEmpty(q[1..], k);
    }
  }

  /** Putting an item at the head of block `r`, when every earlier block is
      empty, puts it at the head of all four. */
  lemma ConsBlocks<T>(a0: seq<T>, a1: seq<T>, a2: seq<T>, a3: seq<T>,
                      w0: seq<T>, w1: seq<T>, w2: seq<T>, w3: seq<T>, h: T, r: nat)
    requires r <= 3
    requires a0 == (if r == 0 then [h] else []) + w0 && a1 == (if r == 1 then [h] else []) + w1
    requires a2 == (if r == 2 then [h] else []) + w2 && a3 == (if r == 3 then [h] else []) + w3
    requires r > 0 ==> w0 == []
    requires r > 1 ==> w1 == []
    requires r > 2 ==> w2 == []
    ensures a0 + a1 + a2 + a3 == [h] + (w0 + w1 + w2 + w3)
  {
  }

  /** Sorting an item in front of a list with no more urgent item keeps it in front. */
  lemma SortByRankCons(q: seq<ReviewItem>)
    requires q != []
    requires forall k: nat :: k < Rank(q[0].priority) ==> WithRank(q[1..], k) == []
    ensures SortByRank(q) == [q[0]] + SortByRank(q[1..])
  {
    var t := q[1..];
    HeadOfGroups(q, 0);
    HeadOfGroups(q, 1);
    HeadOfGroups(q, 2);
    HeadOfGroups(q, 3);
    ConsBlocks(WithRank(q, 0), WithRank(q, 1), WithRank(q, 2), WithRank(q, 3),
               WithRank(t, 0), WithRank(t, 1), WithRank(t, 2), WithRank(t, 3), q[0], Rank(q[0].priority));
  }

  /** A queue that is already in order is left as it is by the sort. */
  lemma {:induction false} SortByRankOfSorted(q: seq<ReviewItem>)
    requires SortedByRank(q)
    ensures SortByRank(q) == q
  {
    if q != [] {
      TailSorted(q);
      SortByRankOfSorted(q[1..]);
      forall k: nat | k < Rank(q[0].priority) ensures WithRank(q[1..], k) == [] {
        WithRankEmpty(q[1..], k);
      }
      SortByRankCons(q);
      assert q == [q[0]] + q[1..];
    }
  }

  lemma BlocksSplit<T>(w0: seq<T>, w1: seq<T>, w2: seq<T>, w3: seq<T>, r: nat)
    ensures w0 + w1 + w2 + w3 == Front(w0, w1, w2, w3, r) + Back(w0, w1, w2, w3, r)
  {
  }

  lemma BlocksInsert<T>(w0: seq<T>, w1: seq<T>, w2: seq<T>, w3: seq<T>, x: T, r: nat)
    requires r <= 3
    ensures (w0 + if r == 0 then [x] else []) + (w1 + if r == 1 then [x] else [])
            + (w2 + if r == 2 then [x] else []) + (w3 + if r == 3 then [x] else [])
            == Front(w0, w1, w2, w3, r) + [x] + Back(w0, w1, w2, w3, r)
  {
    if r == 0 {
      assert (w0 + [x]) + w1 + w2 + w3 == w0 + [x] + (w1 + w2 + w3);
    } else if r == 1 {
      assert w0 + (w1 + [x]) + w2 + w3 == (w0 + w1) + [x] + (w2 + w3);
    } else if r == 2 {
      assert w0 + w1 + (w2 + [x]) + w3 == (w0 + w1 + w2) + [x] + w3;
    } else {
      assert w0 + w1 + w2 + (w3 + [x]) == (w0 + w1 + w2 + w3) + [x] + [];
    }
  }

  /** The sorted queue is the groups up to a rank followed by those above it. */
  lemma SortByRankSplit(q: seq<ReviewItem>, r: nat)
    ensures SortByRank(q) == UpToRank(q, r) + AboveRank(q, r)
  {
    BlocksSplit(WithRank(q, 0), WithRank(q, 1), WithRank(q, 2), WithRank(q, 3), r);
  }

  /** Sorting a list with one more item puts that item after every item of
      its rank or a more urgent one, and before every less urgent item. */
  lemma WithRankSnoc(q: seq<ReviewItem>, x: ReviewItem, k: nat)
    ensures WithRank(q + [x], k) == WithRank(q, k) + (if Rank(x.priority) == k then [x] else [])
  {
    WithRankAppend(q, [x], k);
  }

  /** Sorting a list with one more item puts that item after every item of
      its rank or a more urgent one, and before every less urgent item. */
  lemma SortByRankInsert(q: seq<ReviewItem>, x: ReviewItem)
    ensures SortByRank(q + [x]) == UpToRank(q, Rank(x.priority)) + [x] + AboveRank(q, Rank(x.priority))
  {
    WithRankSnoc(q, x, 0);
    WithRankSnoc(q, x, 1);
    WithRankSnoc(q, x, 2);
    WithRankSnoc(q, x, 3);
    BlocksInsert(WithRank(q, 0), WithRank(q, 1), WithRank(q, 2), WithRank(q, 3), x, Rank(x.priority));
  }

  // ---------------------------------------------------------------------------
  // Well-formed queues

  function CountId(q: seq<ReviewItem>, id: string): nat {
    if q == [] then 0 else (if q[0].reviewId == id then 1 else 0) + CountId(q[1..], id)
  }

  lemma {:induction false} CountIdAppend(a: seq<ReviewItem>, b: seq<ReviewItem>, id: string)
    ensures CountId(a + b, id) == CountId(a, id) + CountId(b, id)
  {
    if a == [] {
      assert a + b == b;
    } else {
      CountIdAppend(a[1..], b, id);
      assert (a + b)[0] == a[0];
      assert (a + b)[1..] == a[1..] + b;
    }
  }

  lemma CountIdHeadOfGroup(q: seq<ReviewItem>, k: nat, id: string)
    requires q != []
    ensures CountId(WithRank(q, k), id)
            == (if Rank(q[0].priority) == k && q[0].reviewId == id then 1 else 0) + CountId(WithRank(q[1..], k), id)
  {
    HeadOfGroups(q, k);
    CountIdAppend(if Rank(q[0].priority) == k then [q[0]] else [], WithRank(q[1..], k), id);
  }

  lemma {:induction false} CountIdOfGroups(q: seq<ReviewItem>, id: string)
    ensures CountId(WithRank(q, 0), id) + CountId(WithRank(q, 1), id) + CountId(WithRank(q, 2), id)
            + CountId(WithRank(q, 3), id) == CountId(q, id)
  {
    if q != [] {
      CountIdOfGroups(q[1..], id);
      CountIdHeadOfGroup(q, 0, id);
      CountIdHeadOfGroup(q, 1, id);
      CountIdHeadOfGroup(q, 2, id);
      CountIdHeadOfGroup(q, 3, id);
    }
  }

  lemma CountIdSplitsByRank(q: seq<ReviewItem>, id: string)
    ensures CountId(SortByRank(q), id) == CountId(q, id)
  {
    var w0, w1, w2, w3 := WithRank(q, 0), WithRank(q, 1), WithRank(q, 2), WithRank(q, 3);
    CountIdAppend(w0 + w1 + w2, w3, id);
    CountIdAppend(w0 + w1, w2, id);
    CountIdAppend(w0, w1, id);
    CountIdOfGroups(q, id);
  }

  lemma {:induction false} CountIdAbsent(q: seq<ReviewItem>, id: string)
    requires forall i :: 0 <= i < |q| ==> q[i].reviewId != id
    ensures CountId(q, id) == 0
  {
    if q != [] {
      CountIdAbsent(q[1..], id);
    }
  }

  ghost predicate DistinctIds(q: seq<ReviewItem>) {
    forall id :: CountId(q, id) <= 1
  }

  /** A pending item carries no resolution; a reviewed one carries all of it. */
  predicate WellFormed(x: ReviewItem) {
    (x.status == Pending && x.reviewedAt.None? && x.reviewedBy.None? && x.adminDecision.None? && x.actionsTaken.None?)
    || (x.status == Reviewed && x.reviewedAt.Some? && x.reviewedBy.Some? && x.adminDecision.Some? && x.actionsTaken.Some?)
  }

  predicate AllWellFormed(q: seq<ReviewItem>) {
    forall x :: x in q ==> WellFormed(x)
  }

  /** `next(item for item in queue if item["review_id"] == review_id)`. */
  function FindReview(q: seq<ReviewItem>, id: string): (r: Option<nat>)
    ensures r.Some? ==> r.value < |q| && q[r.value].reviewId == id
                        && forall j :: 0 <= j < r.value ==> q[j].reviewId != id
    ensures r.None? ==> forall j :: 0 <= j < |q| ==> q[j].reviewId != id
  {
    if q == [] then None
    else if q[0].reviewId == id then Some(0)
    else match FindReview(q[1..], id)
      case None => None
      case Some(i) => Some(i + 1)
  }

  /** The item the agent appends for a new review. */
  function NewItem(feedback: QuizFeedback, reason: string, priority: string, reviewId: string, now: int): ReviewItem {
    ReviewItem(reviewId, feedback, reason, priority, Pending, now, None, None, None, None)
  }

  /** The item after a moderator's decision. */
  function Resolve(x: ReviewItem, adminId: string, decision: ReviewAction, now: int, actions: seq<string>): ReviewItem {
    x.(status := Reviewed, reviewedAt := Some(now), reviewedBy := Some(adminId),
       adminDecision := Some(decision), actionsTaken := Some(actions))
  }

  // ---------------------------------------------------------------------------
  // The decision table

  /** Whether the decision asks the feedback agent to update the knowledge base. */
  predicate CallsKnowledgeBase(decision: ReviewAction, overrideGiven: bool, forceUpdate: bool) {
    (decision == FlagBias && overrideGiven) || (decision == UpdateContent && forceUpdate)
  }

  /** `actions_taken` of a decision that succeeded. */
  function ActionsTaken(decision: ReviewAction, overrideGiven: bool, forceUpdate: bool): (r: seq<string>)
    ensures r == [] <==> (decision == FlagBias && !overrideGiven) || (decision == UpdateContent && !forceUpdate)
    ensures CallsKnowledgeBase(decision, overrideGiven, forceUpdate) <==>
              ("knowledge_base_updated_by_admin" in r || "forced_content_update" in r)
    ensures |r| <= 2
  {
    match decision
    case Approve => ["ai_decision_approved"]
    case Reject => ["ai_decision_rejected"]
    case FlagBias => if overrideGiven then ["manual_bias_flagged", "knowledge_base_updated_by_admin"] else []
    case UpdateContent => if forceUpdate then ["forced_content_update"] else []
    case Dismiss => ["review_dismissed"]
  }

  /** The analysis built from an admin override, with the given default severity. */
  function OverrideAnalysis(o: BiasOverride, defaultSeverity: string, now: int): (b: BiasAnalysis)
    ensures b.hasBias && b.confidenceScore == 1.0
    ensures b.biasTypes == o.biasTypes.GetOr([]) && b.specificIssues == o.specificIssues.GetOr([])
    ensures b.recommendations == o.recommendations.GetOr([]) && b.severity == o.severity.GetOr(defaultSeverity)
  {
    BiasAnalysis(true, o.biasTypes.GetOr([]), o.severity.GetOr(defaultSeverity),
                 o.specificIssues.GetOr([]), o.recommendations.GetOr([]), 1.0, now)
  }

  /** The analysis handed to the knowledge-base update: the override's for
      `flag_bias`; for a forced `update_content` the override's if one is
      given, else the one already on the queued feedback (possibly none). */
  function KnowledgeBaseArgument(decision: ReviewAction, biasOverride: Option<BiasOverride>,
                                 feedback: QuizFeedback, now: int): (r: Option<BiasAnalysis>)
    ensures decision == FlagBias ==> (r.Some? <==> OverrideGiven(biasOverride))
    ensures OverrideGiven(biasOverride) ==>
              r.Some? && r.value.hasBias && r.value.confidenceScore == 1.0
              && r.value.biasTypes == biasOverride.value.biasTypes.GetOr([])
              && r.value.specificIssues == biasOverride.value.specificIssues.GetOr([])
              && r.value.recommendations == biasOverride.value.recommendations.GetOr([])
    ensures OverrideGiven(biasOverride) ==>
              r.value.severity == biasOverride.value.severity.GetOr(if decision == FlagBias then "medium" else "high")
    ensures decision != FlagBias && !OverrideGiven(biasOverride) ==> r == feedback.biasAnalysis
  {
    if OverrideGiven(biasOverride) then
      Some(OverrideAnalysis(biasOverride.value, if decision == FlagBias then "medium" else "high", now))
    else if decision == FlagBias then None
    else feedback.biasAnalysis
  }

  /** The update raises when the abstract call fails, and also when it is
      handed no analysis at all: the prompt reads `bias_analysis.bias_types`
      before the update's own `try`. */
  predicate KnowledgeBaseFails(decision: ReviewAction, biasOverride: Option<BiasOverride>, forceUpdate: bool,
                               feedback: QuizFeedback, now: int, kbRaises: bool)
  {
    CallsKnowledgeBase(decision, OverrideGiven(biasOverride), forceUpdate)
    && (kbRaises || KnowledgeBaseArgument(decision, biasOverride, feedback, now).None?)
  }

  /** A flag_bias decision with an override never fails for want of an analysis. */
  lemma FlagBiasFailsOnlyIfCallRaises(biasOverride: Option<BiasOverride>, feedback: QuizFeedback, now: int, kbRaises: bool)
    requires OverrideGiven(biasOverride)
    ensures KnowledgeBaseFails(FlagBias, biasOverride, false, feedback, now, kbRaises) <==> kbRaises
  {
  }

  // ---------------------------------------------------------------------------
  // Filtering and statistics over a snapshot

  /** `a` is `b` with some items left out, order kept. */
  predicate IsSubsequence<T(==)>(a: seq<T>, b: seq<T>)
    decreases |b|
  {
    if a == [] then true
    else if b == [] then false
    else if a[0] == b[0] then IsSubsequence(a[1..], b[1..])
    else IsSubsequence(a, b[1..])
  }

  lemma {:induction false} SubsequenceOfTail<T>(a: seq<T>, b: seq<T>)
    requires b != [] && IsSubsequence(a, b[1..])
    ensures IsSubsequence(a, b)
    decreases |b|, |a|
  {
    if a != [] && a[0] == b[0] {
      DropHeadSubsequence(a, b[1..]);
    }
  }

  lemma {:induction false} DropHeadSubsequence<T>(a: seq<T>, b: seq<T>)
    requires a != [] && IsSubsequence(a, b)
    ensures IsSubsequence(a[1..], b)
    decreases |b|, |a|
  {
    if a[0] == b[0] {
      if a[1..] != [] {
        SubsequenceOfTail(a[1..], b);
      }
    } else {
      DropHeadSubsequence(a, b[1..]);
      if a[1..] != [] {
        SubsequenceOfTail(a[1..], b);
      }
    }
  }

  lemma {:induction false} SubsequenceTransitive<T>(a: seq<T>, b: seq<T>, c: seq<T>)
    requires IsSubsequence(a, b) && IsSubsequence(b, c)
    ensures IsSubsequence(a, c)
    decreases |c|
  {
    if a != [] {
      assert b != [] && c != [];
      if b[0] == c[0] {
        if a[0] == b[0] {
          SubsequenceTransitive(a[1..], b[1..], c[1..]);
        } else {
          SubsequenceTransitive(a, b[1..], c[1..]);
          SubsequenceOfTail(a, c);
        }
      } else {
        SubsequenceTransitive(a, b, c[1..]);
        SubsequenceOfTail(a, c);
      }
    }
  }

  /** Python truthiness of an optional filter string. */
  predicate FilterSet(f: Option<string>) {
    f.Some? && f.value != ""
  }

  /** One condition of `get_review_queue`: a status or a priority to match. */
  datatype Filter = StatusIs(status: string) | PriorityIs(priority: string)

  predicate Keeps(f: Filter, x: ReviewItem) {
    match f
    case StatusIs(status) => x.status == status
    case PriorityIs(priority) => x.priority == priority
  }

  /** The items that pass one filter, in queue order. */
  function Select(q: seq<ReviewItem>, f: Filter): (r: seq<ReviewItem>)
    ensures forall x :: x in r <==> x in q && Keeps(f, x)
    ensures IsSubsequence(r, q)
  {
    if q == [] then []
    else if Keeps(f, q[0]) then [q[0]] + Select(q[1..], f)
    else
      var r := Select(q[1..], f);
      SubsequenceOfTail(r, q);
      r
  }

  lemma {:induction false} SubsequenceReflexive<T>(a: seq<T>)
    ensures IsSubsequence(a, a)
  {
    if a != [] {
      SubsequenceReflexive(a[1..]);
    }
  }

  lemma {:induction false} SubsequenceOfSortedIsSorted(a: seq<ReviewItem>, b: seq<ReviewItem>)
    requires IsSubsequence(a, b) && SortedByRank(b)
    ensures SortedByRank(a)
    decreases |b|
  {
    if a != [] {
      if a[0] == b[0] {
        SubsequenceOfSortedIsSorted(a[1..], b[1..]);
        SubsequenceMembers(a[1..], b[1..]);
        forall j | 0 < j < |a| ensures Rank(a[0].priority) <= Rank(a[j].priority) {
          assert a[j] == a[1..][j - 1];
          assert a[j] in b[1..];
        }
      } else {
        SubsequenceOfSortedIsSorted(a, b[1..]);
      }
    }
  }

  lemma {:induction false} SubsequenceMembers<T>(a: seq<T>, b: seq<T>)
    requires IsSubsequence(a, b)
    ensures forall x :: x in a ==> x in b
    decreases |b|
  {
    if a != [] {
      if a[0] == b[0] {
        SubsequenceMembers(a[1..], b[1..]);
        assert forall x :: x in a ==> x == a[0] || x in a[1..];
      } else {
        SubsequenceMembers(a, b[1..]);
      }
    }
  }

  predicate MatchesFilters(x: ReviewItem, status: Option<string>, priority: Option<string>) {
    (FilterSet(status) ==> x.status == status.value) && (FilterSet(priority) ==> x.priority == priority.value)
  }

  /** `get_review_queue` over a queue snapshot. */
  function ReviewQueueView(q: seq<ReviewItem>, status: Option<string>, priority: Option<string>): (r: seq<ReviewItem>)
    ensures forall x :: x in r <==> x in q && MatchesFilters(x, status, priority)
    ensures IsSubsequence(r, q)
    ensures !FilterSet(status) && !FilterSet(priority) ==> r == q
  {
    var a := if FilterSet(status) then Select(q, StatusIs(status.value)) else q;
    var b := if FilterSet(priority) then Select(a, PriorityIs(priority.value)) else a;
    SubsequenceReflexive(q);
    SubsequenceReflexive(a);
    SubsequenceTransitive(b, a, q);
    b
  }

  function CountStatus(q: seq<ReviewItem>, status: string): nat {
    if q == [] then 0 else (if q[0].status == status then 1 else 0) + CountStatus(q[1..], status)
  }

  function CountPendingPriority(q: seq<ReviewItem>, priority: string): nat {
    if q == [] then 0
    else (if q[0].priority == priority && q[0].status == Pending then 1 else 0) + CountPendingPriority(q[1..], priority)
  }

  function CountDecision(q: seq<ReviewItem>, d: ReviewAction): nat {
    if q == [] then 0 else (if q[0].adminDecision == Some(d) then 1 else 0) + CountDecision(q[1..], d)
  }

  /** `decisions` of `get_statistics`: the decisions recorded on the queue, in queue order. */
  function Decisions(q: seq<ReviewItem>): seq<ReviewAction> {
    if q == [] then [] else (if q[0].adminDecision.Some? then [q[0].adminDecision.value] else []) + Decisions(q[1..])
  }

  lemma {:induction false} CountStatusSelected(q: seq<ReviewItem>, status: string)
    ensures CountStatus(q, status) == |Select(q, StatusIs(status))|
  {
    if q != [] {
      CountStatusSelected(q[1..], status);
    }
  }

  /** Each status count is the length of the queue viewed with that status filter. */
  lemma CountStatusIsView(q: seq<ReviewItem>, status: string)
    requires status != ""
    ensures CountStatus(q, status) == |ReviewQueueView(q, Some(status), None)|
  {
    CountStatusSelected(q, status);
  }

  lemma {:induction false} CountPendingPrioritySelected(q: seq<ReviewItem>, priority: string)
    ensures CountPendingPriority(q, priority) == |Select(Select(q, StatusIs(Pending)), PriorityIs(priority))|
  {
    if q != [] {
      CountPendingPrioritySelected(q[1..], priority);
      var rest := Select(q[1..], StatusIs(Pending));
      if q[0].status == Pending {
        var pending := [q[0]] + rest;
        assert pending[0] == q[0] && pending[1..] == rest;
      }
    }
  }

  /** Each pending-by-priority count is the length of the queue viewed with
      both filters. */
  lemma CountPendingPriorityIsView(q: seq<ReviewItem>, priority: string)
    requires priority != ""
    ensures CountPendingPriority(q, priority) == |ReviewQueueView(q, Some(Pending), Some(priority))|
  {
    CountPendingPrioritySelected(q, priority);
  }

  /** Each decision count is how often the decision occurs among the recorded decisions. */
  lemma {:induction false} CountDecisionIsOccurrences(q: seq<ReviewItem>, d: ReviewAction)
    ensures CountDecision(q, d) == multiset(Decisions(q))[d]
  {
    if q != [] {
      CountDecisionIsOccurrences(q[1..], d);
      var head := if q[0].adminDecision.Some? then [q[0].adminDecision.value] else [];
      assert multiset(Decisions(q)) == multiset(head) + multiset(Decisions(q[1..]));
    }
  }

  datatype Statistics = Statistics(
    totalReviews: nat,
    pendingReviews: nat,
    reviewed: nat,
    urgentPending: nat,
    highPending: nat,
    mediumPending: nat,
    lowPending: nat,
    approved: nat,
    rejected: nat,
    flaggedBias: nat,
    updatedContent: nat,
    dismissed: nat,
    manualBiasFlags: nat,
    aiAccuracyPercentage: real,
    totalHistoryRecords: nat)

  lemma {:induction false} PendingPlusReviewedBounded(q: seq<ReviewItem>)
    ensures CountStatus(q, Pending) + CountStatus(q, Reviewed) <= |q|
  {
    if q != [] {
      PendingPlusReviewedBounded(q[1..]);
    }
  }

  lemma {:induction false} PriorityBreakdownBounded(q: seq<ReviewItem>)
    ensures CountPendingPriority(q, "urgent") + CountPendingPriority(q, "high")
            + CountPendingPriority(q, "medium") + CountPendingPriority(q, "low") <= CountStatus(q, Pending)
  {
    if q != [] {
      PriorityBreakdownBounded(q[1..]);
    }
  }

  /** `get_statistics` over the two snapshots. */
  function StatisticsOf(q: seq<ReviewItem>, history: seq<HistoryEntry>): (s: Statistics)
    ensures s.totalReviews == |q| && s.totalHistoryRecords == |history|
    ensures s.pendingReviews + s.reviewed <= s.totalReviews
    ensures s.urgentPending + s.highPending + s.mediumPending + s.lowPending <= s.pendingReviews
    ensures s.manualBiasFlags == s.flaggedBias
    ensures s.reviewed == 0 ==> s.aiAccuracyPercentage == 0.0
    ensures s.reviewed > 0 ==> s.aiAccuracyPercentage * (s.reviewed as real) == (s.approved as real) * 100.0
  {
    PendingPlusReviewedBounded(q);
    PriorityBreakdownBounded(q);
    var reviewed := CountStatus(q, Reviewed);
    var approved := CountDecision(q, Approve);
    Statistics(
      |q|, CountStatus(q, Pending), reviewed,
      CountPendingPriority(q, "urgent"), CountPendingPriority(q, "high"),
      CountPendingPriority(q, "medium"), CountPendingPriority(q, "low"),
      approved, CountDecision(q, Reject), CountDecision(q, FlagBias),
      CountDecision(q, UpdateContent), CountDecision(q, Dismiss),
      CountDecision(q, FlagBias),
      Accuracy(approved, reviewed),
      |history|)
  }

  /** What the status and priority figures of `get_statistics` count: the
      items the queue view shows with the matching filters. */
  lemma StatisticsCountViews(q: seq<ReviewItem>, history: seq<HistoryEntry>)
    ensures var s := StatisticsOf(q, history);
            s.pendingReviews == |ReviewQueueView(q, Some(Pending), None)|
            && s.reviewed == |ReviewQueueView(q, Some(Reviewed), None)|
            && s.urgentPending == |ReviewQueueView(q, Some(Pending), Some("urgent"))|
            && s.highPending == |ReviewQueueView(q, Some(Pending), Some("high"))|
            && s.mediumPending == |ReviewQueueView(q, Some(Pending), Some("medium"))|
            && s.lowPending == |ReviewQueueView(q, Some(Pending), Some("low"))|
  {
    CountStatusIsView(q, Pending);
    CountStatusIsView(q, Reviewed);
    CountPendingPriorityIsView(q, "urgent");
    CountPendingPriorityIsView(q, "high");
    CountPendingPriorityIsView(q, "medium");
    CountPendingPriorityIsView(q, "low");
  }

  /** What the decision figures of `get_statistics` count: how often each
      decision occurs among the decisions recorded on the queue. */
  lemma StatisticsCountDecisions(q: seq<ReviewItem>, history: seq<HistoryEntry>)
    ensures var s := StatisticsOf(q, history);
            var m := multiset(Decisions(q));
            s.approved == m[Approve] && s.rejected == m[Reject] && s.flaggedBias == m[FlagBias]
            && s.updatedContent == m[UpdateContent] && s.dismissed == m[Dismiss]
            && s.manualBiasFlags == m[FlagBias]
  {
    CountDecisionIsOccurrences(q, Approve);
    CountDecisionIsOccurrences(q, Reject);
    CountDecisionIsOccurrences(q, FlagBias);
    CountDecisionIsOccurrences(q, UpdateContent);
    CountDecisionIsOccurrences(q, Dismiss);
  }

  /** The share of reviewed items the admin approved, as a percentage: 0 when
      nothing was reviewed, otherwise `approved * 100` spread over the
      reviewed count, and within [0, 100] whenever approvals are a part of it. */
  function Accuracy(approved: nat, reviewed: nat): (p: real)
    ensures reviewed == 0 ==> p == 0.0
    ensures reviewed > 0 ==> p * (reviewed as real) == (approved as real) * 100.0
    ensures approved <= reviewed ==> 0.0 <= p <= 100.0
  {
    if reviewed > 0 then
      Fractions.PercentBounds(approved, reviewed);
      (approved as real) / (reviewed as real) * 100.0
    else 0.0
  }

  /** On a well-formed queue every decision belongs to a reviewed item, so the
      decision counts add up to the reviewed count. */
  lemma {:induction false} DecisionsCoverReviewed(q: seq<ReviewItem>)
    requires AllWellFormed(q)
    ensures CountDecision(q, Approve) + CountDecision(q, Reject) + CountDecision(q, FlagBias)
            + CountDecision(q, UpdateContent) + CountDecision(q, Dismiss) == CountStatus(q, Reviewed)
  {
    if q != [] {
      assert WellFormed(q[0]) by { assert q[0] in q; }
      assert AllWellFormed(q[1..]) by {
        forall x | x in q[1..] ensures WellFormed(x) {
          assert x in q;
        }
      }
      DecisionsCoverReviewed(q[1..]);
      if q[0].status == Reviewed {
        assert CountStatus(q, Reviewed) == 1 + CountStatus(q[1..], Reviewed);
        match q[0].adminDecision.value
        case Approve =>
        case Reject =>
        case FlagBias =>
        case UpdateContent =>
        case Dismiss =>
      } else {
        assert q[0].status == Pending && q[0].adminDecision.None?;
      }
    }
  }

  /** On a well-formed queue the AI accuracy is a percentage. */
  lemma AccuracyIsPercentage(q: seq<ReviewItem>, history: seq<HistoryEntry>)
    requires AllWellFormed(q)
    ensures 0.0 <= StatisticsOf(q, history).aiAccuracyPercentage <= 100.0
  {
    DecisionsCoverReviewed(q);
  }

  /** The synthetic feedback `flag_bias_manually` files for an admin's flag. */
  function ManualFeedback(feedbackId: string, quizId: string, userId: string, concept: string,
                          biasTypes: seq<string>, severity: string, specificIssues: seq<string>,
                          recommendations: seq<string>, adminNotes: Option<string>, now: int): QuizFeedback
  {
    var notes := if adminNotes.Some? && adminNotes.value != "" then adminNotes.value else "No notes";
    QuizFeedback(feedbackId, quizId, userId, concept, 1,
                 Some("Manual bias flag by admin: " + notes), Some("just_right"), Some(1),
                 Some(BiasAnalysis(true, biasTypes, severity, specificIssues, recommendations, 1.0, now)),
                 now, true)
  }

  /** Adding an item to an ordered queue and sorting places it right after
      the items of its rank or a more urgent one; nothing else moves. */
  lemma InsertIntoSorted(q: seq<ReviewItem>, x: ReviewItem)
    requires SortedByRank(q)
    ensures var n := |UpToRank(q, Rank(x.priority))|;
            n <= |q| && SortByRank(q + [x]) == q[..n] + [x] + q[n..]
  {
    SortByRankOfSorted(q);
    SortByRankSplit(q, Rank(x.priority));
    SortByRankInsert(q, x);
    var up := UpToRank(q, Rank(x.priority));
    assert q[..|up|] == up && q[|up|..] == AboveRank(q, Rank(x.priority));
  }

  /** Sorting after adding an item with a fresh id keeps ids distinct. */
  lemma InsertKeepsIdsDistinct(q: seq<ReviewItem>, x: ReviewItem)
    requires DistinctIds(q)
    requires forall i :: 0 <= i < |q| ==> q[i].reviewId != x.reviewId
    ensures DistinctIds(SortByRank(q + [x]))
  {
    CountIdAbsent(q, x.reviewId);
    forall id ensures CountId(SortByRank(q + [x]), id) <= 1 {
      CountIdSplitsByRank(q + [x], id);
      CountIdAppend(q, [x], id);
    }
  }

  /** Sorting after adding a well-formed item keeps every item well formed. */
  lemma InsertKeepsWellFormed(q: seq<ReviewItem>, x: ReviewItem)
    requires AllWellFormed(q) && WellFormed(x)
    ensures AllWellFormed(SortByRank(q + [x]))
  {
    SortByRankPermutation(q + [x]);
    forall y | y in SortByRank(q + [x]) ensures WellFormed(y) {
      assert y in multiset(q + [x]);
      assert y in q + [x];
      if y != x {
        assert y in q;
      }
    }
  }

  /** Resolving one item keeps the queue ordered, its ids distinct and every
      item well formed. */
  lemma ResolveKeepsInvariant(q: seq<ReviewItem>, i: nat, adminId: string, d: ReviewAction, now: int, acts: seq<string>)
    requires i < |q| && SortedByRank(q) && DistinctIds(q) && AllWellFormed(q)
    ensures var q' := q[i := Resolve(q[i], adminId, d, now, acts)];
            SortedByRank(q') && DistinctIds(q') && AllWellFormed(q')
  {
    var x := Resolve(q[i], adminId, d, now, acts);
    var q' := q[i := x];
    assert forall j :: 0 <= j < |q'| ==> q'[j].priority == q[j].priority;
    forall id ensures CountId(q', id) <= 1 {
      CountIdUpdate(q, i, x, id);
    }
    forall y | y in q' ensures WellFormed(y) {
      var j :| 0 <= j < |q'| && q'[j] == y;
      if j != i {
        assert y == q[j] && q[j] in q;
      }
    }
  }

  /** The decision branch of `process_admin_review`: the actions each
      decision records, and the failure when the knowledge-base update it
      makes raises. */
  method TakeDecision(feedback: QuizFeedback, d: ReviewAction, biasOverride: Option<BiasOverride>,
                      forceUpdate: bool, now: int, kbRaises: bool)
    returns (res: Result<seq<string>, ReviewError>)
    ensures res.Ok? <==> !KnowledgeBaseFails(d, biasOverride, forceUpdate, feedback, now, kbRaises)
    ensures res.Ok? ==> res.value == ActionsTaken(d, OverrideGiven(biasOverride), forceUpdate)
    ensures res.Err? ==> res.error == (if d == FlagBias then KnowledgeBaseUpdateFailed else ForcedUpdateFailed)
  {
    var actions: seq<string> := [];
    match d {
      case Approve =>
        actions := actions + ["ai_decision_approved"];
      case Reject =>
        actions := actions + ["ai_decision_rejected"];
      case FlagBias =>
        if OverrideGiven(biasOverride) {
          actions := actions + ["manual_bias_flagged"];
          if kbRaises {
            actions := actions + ["knowledge_base_update_failed"];
            return Err(KnowledgeBaseUpdateFailed);
          }
          actions := actions + ["knowledge_base_updated_by_admin"];
        }
      case UpdateContent =>
        if forceUpdate {
          var analysis := feedback.biasAnalysis;
          if OverrideGiven(biasOverride) {
            analysis := Some(OverrideAnalysis(biasOverride.value, "high", now));
          }
          if kbRaises || analysis.None? {
            actions := actions + ["forced_update_failed"];
            return Err(ForcedUpdateFailed);
          }
          actions := actions + ["forced_content_update"];
        }
      case Dismiss =>
        actions := actions + ["review_dismissed"];
    }
    res := Ok(actions);
  }

  // ---------------------------------------------------------------------------
  // The store

  class ReviewStore {
    /** Contents of the review queue file. */
    var queue: seq<ReviewItem>
    /** Contents of the review history file. */
    var history: seq<HistoryEntry>

    ghost predicate Valid()
      reads this
    {
      SortedByRank(queue) && DistinctIds(queue) && AllWellFormed(queue)
    }

    constructor ()
      ensures Valid() && queue == [] && history == []
    {
      queue := [];
      history := [];
    }

    /** `add_to_review_queue`: append a pending item and re-sort. The id is
        supplied by the caller and must not already be queued. */
    method AddToReviewQueue(feedback: QuizFeedback, reason: string, priority: string, reviewId: string, now: int)
      returns (id: string)
      requires Valid()
      requires forall i :: 0 <= i < |queue| ==> queue[i].reviewId != reviewId
      modifies this
      ensures Valid()
      ensures id == reviewId
      ensures queue == SortByRank(old(queue) + [NewItem(feedback, reason, priority, reviewId, now)])
      ensures var n := |UpToRank(old(queue), Rank(priority))|;
              n <= |old(queue)| && queue == old(queue)[..n] + [NewItem(feedback, reason, priority, reviewId, now)] + old(queue)[n..]
      ensures multiset(queue) == multiset(old(queue)) + multiset{NewItem(feedback, reason, priority, reviewId, now)}
      ensures history == old(history)
    {
      var item := NewItem(feedback, reason, priority, reviewId, now);
      InsertIntoSorted(queue, item);
      SortByRankSorted(queue + [item]);
      SortByRankPermutation(queue + [item]);
      InsertKeepsIdsDistinct(queue, item);
      InsertKeepsWellFormed(queue, item);
      queue := SortByRank(queue + [item]);
      id := reviewId;
    }

    /** `get_review_queue`: the queued items that match the given filters. */
    function GetReviewQueue(status: Option<string>, priority: Option<string>): (r: seq<ReviewItem>)
      reads this
      ensures forall x :: x in r <==> x in queue && MatchesFilters(x, status, priority)
      ensures IsSubsequence(r, queue)
      ensures !FilterSet(status) && !FilterSet(priority) ==> r == queue
    {
      ReviewQueueView(queue, status, priority)
    }

    /** `_add_to_history`: the history only grows, by one entry. */
    method AddToHistory(item: ReviewItem, review: AdminReviewRecord)
      modifies this
      ensures history == old(history) + [HistoryEntry(item, review)]
      ensures queue == old(queue)
    {
      history := history + [HistoryEntry(item, review)];
    }

    /** `process_admin_review`. The knowledge-base update is an outside call:
        `kbRaises` says whether it raises when it is made. */
    method ProcessAdminReview(reviewId: string, adminId: string, decision: string, adminNotes: Option<string>,
                              biasOverride: Option<BiasOverride>, forceUpdate: bool, now: int, kbRaises: bool)
      returns (res: Result<AdminReviewRecord, ReviewError>)
      requires Valid()
      modifies this
      ensures Valid()
      ensures FindReview(old(queue), reviewId).None? ==> res == Err(NotFound(reviewId))
      ensures FindReview(old(queue), reviewId).Some? && ParseAction(decision).None? ==> res == Err(InvalidDecision(decision))
      ensures FindReview(old(queue), reviewId).Some? && ParseAction(decision).Some? ==>
                (res.Ok? <==> !KnowledgeBaseFails(ParseAction(decision).value, biasOverride, forceUpdate,
                                                  old(queue)[FindReview(old(queue), reviewId).value].feedback, now, kbRaises))
      ensures res.Err? ==> queue == old(queue) && history == old(history)
      ensures res.Ok? ==>
                FindReview(old(queue), reviewId).Some? && ParseAction(decision).Some? &&
                var i := FindReview(old(queue), reviewId).value;
                var d := ParseAction(decision).value;
                var acts := ActionsTaken(d, OverrideGiven(biasOverride), forceUpdate);
                var rec := AdminReviewRecord(reviewId, old(queue)[i].feedback.feedbackId, adminId, d,
                                             adminNotes, biasOverride, now, acts);
                res.value == rec
                && queue == old(queue)[i := Resolve(old(queue)[i], adminId, d, now, acts)]
                && history == old(history) + [HistoryEntry(queue[i], rec.(actionsTaken := []))]
    {
      var found := FindReview(queue, reviewId);
      if found.None? {
        return Err(NotFound(reviewId));
      }
      var i := found.value;
      var item := queue[i];
      var parsed := ParseAction(decision);
      if parsed.None? {
        return Err(InvalidDecision(decision));
      }
      var d := parsed.value;
      var review := AdminReviewRecord(reviewId, item.feedback.feedbackId, adminId, d, adminNotes, biasOverride, now, []);
      var taken := TakeDecision(item.feedback, d, biasOverride, forceUpdate, now, kbRaises);
      if taken.Err? {
        return Err(taken.error);
      }
      var actions := taken.value;
      var resolved := Resolve(item, adminId, d, now, actions);
      ResolveKeepsInvariant(queue, i, adminId, d, now, actions);
      queue := queue[i := resolved];
      AddToHistory(resolved, review);
      res := Ok(review.(actionsTaken := actions));
    }

    /** `get_statistics` on the current queue and history. */
    function GetStatistics(): (s: Statistics)
      reads this
      ensures s.totalReviews == |queue| && s.totalHistoryRecords == |history|
      ensures s.pendingReviews == |ReviewQueueView(queue, Some(Pending), None)|
      ensures s.reviewed == |ReviewQueueView(queue, Some(Reviewed), None)|
      ensures s.approved == multiset(Decisions(queue))[Approve]
      ensures s.flaggedBias == multiset(Decisions(queue))[FlagBias]
      ensures s.pendingReviews + s.reviewed <= s.totalReviews
      ensures s.manualBiasFlags == s.flaggedBias
      ensures s == StatisticsOf(queue, history)
    {
      StatisticsCountViews(queue, history);
      StatisticsCountDecisions(queue, history);
      StatisticsOf(queue, history)
    }

    /** `flag_bias_manually`: file a synthetic one-star feedback with the
        admin's analysis as an urgent review; it stays pending. */
    method FlagBiasManually(quizId: string, userId: string, concept: string, adminId: string,
                            biasTypes: seq<string>, severity: string, specificIssues: seq<string>,
                            recommendations: seq<string>, adminNotes: Option<string>,
                            feedbackId: string, reviewId: string, now: int)
      returns (id: string)
      requires Valid()
      requires forall i :: 0 <= i < |queue| ==> queue[i].reviewId != reviewId
      modifies this
      ensures Valid()
      ensures id == reviewId
      ensures var fb := ManualFeedback(feedbackId, quizId, userId, concept, biasTypes, severity,
                                       specificIssues, recommendations, adminNotes, now);
              var n := |WithRank(old(queue), 0)|;
              n <= |old(queue)|
              && queue == old(queue)[..n] + [NewItem(fb, "Manual bias flag by admin " + adminId, "urgent", reviewId, now)] + old(queue)[n..]
              && fb.rating == 1 && fb.relevanceScore == Some(1) && fb.processed
              && fb.biasAnalysis.Some? && fb.biasAnalysis.value.hasBias && fb.biasAnalysis.value.confidenceScore == 1.0
      ensures history == old(history)
    {
      var fb := ManualFeedback(feedbackId, quizId, userId, concept, biasTypes, severity,
                               specificIssues, recommendations, adminNotes, now);
      id := AddToReviewQueue(fb, "Manual bias flag by admin " + adminId, "urgent", reviewId, now);
    }
  }

  lemma {:induction false} CountIdUpdate(q: seq<ReviewItem>, i: nat, x: ReviewItem, id: string)
    requires i < |q| && x.reviewId == q[i].reviewId
    ensures CountId(q[i := x], id) == CountId(q, id)
  {
    if i > 0 {
      CountIdUpdate(q[1..], i - 1, x, id);
      assert q[i := x][1..] == q[1..][i - 1 := x];
    }
  }

  lemma {:induction false} CountIdPresent(q: seq<ReviewItem>, i: nat, id: string)
    requires i < |q| && q[i].reviewId == id
    ensures CountId(q, id) >= 1
  {
    if i > 0 {
      CountIdPresent(q[1..], i - 1, id);
    }
  }

  lemma {:induction false} CountIdTwice(q: seq<ReviewItem>, j: nat, i: nat, id: string)
    requires j < i < |q| && q[j].reviewId == id && q[i].reviewId == id
    ensures CountId(q, id) >= 2
  {
    if j == 0 {
      CountIdPresent(q[1..], i - 1, id);
    } else {
      CountIdTwice(q[1..], j - 1, i - 1, id);
    }
  }

  /** In a queue of distinct ids, looking up an item's id finds that item. */
  lemma {:induction false} FindReviewDistinct(q: seq<ReviewItem>, i: nat)
    requires i < |q| && CountId(q, q[i].reviewId) <= 1
    ensures FindReview(q, q[i].reviewId) == Some(i)
  {
    var id := q[i].reviewId;
    var r := FindReview(q, id);
    if r.value < i {
      CountIdTwice(q, r.value, i, id);
      assert false;
    }
  }

  /** The queue does not forbid resolving an item twice: in any valid store, a
      recognised decision on an item that is already reviewed is processed
      like a first one. It succeeds exactly when the knowledge-base step does,
      and then overwrites the recorded resolution, leaves every other item
      alone and adds one more history record. */
  method DecideReviewedItemAgain(store: ReviewStore, i: nat, adminId: string, decision: string,
                                 adminNotes: Option<string>, biasOverride: Option<BiasOverride>,
                                 forceUpdate: bool, now: int, kbRaises: bool)
    returns (res: Result<AdminReviewRecord, ReviewError>)
    requires store.Valid() && i < |store.queue| && store.queue[i].status == Reviewed
    requires ParseAction(decision).Some?
    modifies store
    ensures store.Valid()
    ensures res.Ok? <==> !KnowledgeBaseFails(ParseAction(decision).value, biasOverride, forceUpdate,
                                             old(store.queue[i]).feedback, now, kbRaises)
    ensures res.Err? ==> store.queue == old(store.queue) && store.history == old(store.history)
    ensures res.Ok? ==>
              |store.queue| == |old(store.queue)|
              && store.queue[i].status == Reviewed && store.queue[i].adminDecision == ParseAction(decision)
              && store.queue[i].reviewedBy == Some(adminId) && store.queue[i].reviewedAt == Some(now)
              && (forall j :: 0 <= j < |store.queue| && j != i ==> store.queue[j] == old(store.queue[j]))
              && |store.history| == |old(store.history)| + 1
  {
    assert CountId(store.queue, store.queue[i].reviewId) <= 1;
    FindReviewDistinct(store.queue, i);
    res := store.ProcessAdminReview(store.queue[i].reviewId, adminId, decision, adminNotes, biasOverride,
                                    forceUpdate, now, kbRaises);
  }
}
