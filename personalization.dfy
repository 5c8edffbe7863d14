/** The two summaries agents/personalization_agent.py builds for the story
    writer: how the reader did on one concept, and where their money went. */
module Personalization {
  import opened Wrappers
  import opened Models
  import Orchestrator

  datatype Mastery = Novice | Learning | Proficient | Expert

  /** The mastery band of an average score ratio. */
  function MasteryOf(avg: real): (m: Mastery)
    ensures m == Expert <==> avg >= 0.9
    ensures m == Proficient <==> 0.7 <= avg < 0.9
    ensures m == Learning <==> 0.5 <= avg < 0.7
    ensures m == Novice <==> avg < 0.5
  {
    if avg >= 0.9 then Expert else if avg >= 0.7 then Proficient else if avg >= 0.5 then Learning else Novice
  }

  /** The entries about `concept`, in history order. */
  function ConceptQuizzes(history: seq<QuizHistory>, concept: string): seq<QuizHistory> {
    if history == [] then []
    else
      var last := history[|history| - 1];
      ConceptQuizzes(history[..|history| - 1], concept) + (if last.concept == concept then [last] else [])
  }

  lemma ConceptQuizzesStep(history: seq<QuizHistory>, concept: string)
    requires history != []
    ensures var last := history[|history| - 1];
            ConceptQuizzes(history, concept)
            == ConceptQuizzes(history[..|history| - 1], concept) + (if last.concept == concept then [last] else [])
  {
  }

  /** The filter keeps exactly the entries about the concept. */
  lemma {:induction false} ConceptQuizzesMembers(history: seq<QuizHistory>, concept: string)
    ensures forall q :: q in ConceptQuizzes(history, concept) <==> q in history && q.concept == concept
  {
    if history != [] {
      var init := history[..|history| - 1];
      ConceptQuizzesMembers(init, concept);
      ConceptQuizzesStep(history, concept);
      assert history == init + [history[|history| - 1]];
    }
  }

  /** The last entry the filter keeps is the latest one about the concept. */
  lemma {:induction false} ConceptQuizzesLast(history: seq<QuizHistory>, concept: string)
    requires ConceptQuizzes(history, concept) != []
    ensures exists k :: 0 <= k < |history| && history[k] == ConceptQuizzes(history, concept)[|ConceptQuizzes(history, concept)| - 1]
                        && history[k].concept == concept
                        && forall j :: k < j < |history| ==> history[j].concept != concept
  {
    var init := history[..|history| - 1];
    var last := history[|history| - 1];
    ConceptQuizzesStep(history, concept);
    var cq := ConceptQuizzes(history, concept);
    if last.concept == concept {
      assert history[|history| - 1] == cq[|cq| - 1];
    } else {
      assert cq == ConceptQuizzes(init, concept);
      ConceptQuizzesLast(init, concept);
      var k :| 0 <= k < |init| && init[k] == cq[|cq| - 1] && init[k].concept == concept
               && forall j :: k < j < |init| ==> init[j].concept != concept;
      assert history[k] == init[k];
      forall j | k < j < |history| ensures history[j].concept != concept {
        if j < |init| {
          assert history[j] == init[j];
        }
      }
    }
  }

  /** What `_analyze_concept_performance` returns; the last two are absent
      (None) when there were no attempts. */
  datatype ConceptPerformance = ConceptPerformance(
    attempts: nat,
    averageScore: Option<real>,
    mastery: Mastery,
    lastAttemptScore: Option<real>)

  /** `_analyze_concept_performance`. Every entry about the concept must have
      questions, as the ratio divides by their number. */
  function AnalyzeConceptPerformance(history: seq<QuizHistory>, concept: string): (p: ConceptPerformance)
    requires Orchestrator.AllGraded(ConceptQuizzes(history, concept))
    ensures var cq := ConceptQuizzes(history, concept);
            p.attempts == |cq|
            && (cq == [] ==> p == ConceptPerformance(0, None, Novice, None))
            && (cq != [] ==> p.averageScore == Some(Orchestrator.MeanRatio(cq))
                             && p.mastery == MasteryOf(p.averageScore.value)
                             && p.lastAttemptScore == Some(Orchestrator.Ratio(cq[|cq| - 1])))
  {
    var cq := ConceptQuizzes(history, concept);
    if cq == [] then ConceptPerformance(0, None, Novice, None)
    else
      var avg := Orchestrator.MeanRatio(cq);
      ConceptPerformance(|cq|, Some(avg), MasteryOf(avg), Some(Orchestrator.Ratio(cq[|cq| - 1])))
  }

  /** The last attempt score is the ratio of the latest entry about the concept. */
  lemma LastAttemptIsLatest(history: seq<QuizHistory>, concept: string)
    requires Orchestrator.AllGraded(ConceptQuizzes(history, concept))
    requires ConceptQuizzes(history, concept) != []
    ensures exists k :: 0 <= k < |history| && history[k].concept == concept
                        && (forall j :: k < j < |history| ==> history[j].concept != concept)
                        && history[k].totalQuestions > 0
                        && AnalyzeConceptPerformance(history, concept).lastAttemptScore == Some(Orchestrator.Ratio(history[k]))
  {
    ConceptQuizzesLast(history, concept);
    var cq := ConceptQuizzes(history, concept);
    var k :| 0 <= k < |history| && history[k] == cq[|cq| - 1] && history[k].concept == concept
             && forall j :: k < j < |history| ==> history[j].concept != concept;
  }

  function Abs(x: real): real {
    if x < 0.0 then -x else x
  }

  /** The total of each category's absolute amounts. */
  function CategoryTotals(txns: seq<Transaction>): map<string, real> {
    if txns == [] then map[]
    else
      var m := CategoryTotals(txns[..|txns| - 1]);
      var t := txns[|txns| - 1];
      m[t.category := (if t.category in m then m[t.category] else 0.0) + Abs(t.amount)]
  }

  /** The categories in order of first appearance: a dictionary's iteration order. */
  function CategoryOrder(txns: seq<Transaction>): seq<string> {
    if txns == [] then []
    else
      var order := CategoryOrder(txns[..|txns| - 1]);
      var c := txns[|txns| - 1].category;
      if c in order then order else order + [c]
  }

  function TotalSpent(txns: seq<Transaction>): real {
    if txns == [] then 0.0 else TotalSpent(txns[..|txns| - 1]) + Abs(txns[|txns| - 1].amount)
  }

  predicate Distinct(xs: seq<string>) {
    forall i, j :: 0 <= i < j < |xs| ==> xs[i] != xs[j]
  }

  /** The order lists each category of the totals exactly once. */
  lemma {:induction false} OrderMatchesTotals(txns: seq<Transaction>)
    ensures forall c :: c in CategoryOrder(txns) <==> c in CategoryTotals(txns)
    ensures Distinct(CategoryOrder(txns))
  {
    if txns != [] {
      OrderMatchesTotals(txns[..|txns| - 1]);
    }
  }

  function SumOver(order: seq<string>, totals: map<string, real>): real
    requires forall c :: c in order ==> c in totals
  {
    if order == [] then 0.0 else SumOver(order[..|order| - 1], totals) + totals[order[|order| - 1]]
  }

  lemma {:induction false} SumOverIgnoresOthers(order: seq<string>, totals: map<string, real>, c: string, v: real)
    requires forall x :: x in order ==> x in totals
    requires c !in order
    ensures SumOver(order, totals[c := v]) == SumOver(order, totals)
  {
    if order != [] {
      SumOverIgnoresOthers(order[..|order| - 1], totals, c, v);
    }
  }

  lemma {:induction false} SumOverBump(order: seq<string>, totals: map<string, real>, c: string, d: real)
    requires forall x :: x in order ==> x in totals
    requires Distinct(order) && c in order
    ensures SumOver(order, totals[c := totals[c] + d]) == SumOver(order, totals) + d
  {
    var init := order[..|order| - 1];
    var last := order[|order| - 1];
    if last == c {
      forall i | 0 <= i < |init| ensures init[i] != c {
        assert init[i] == order[i];
      }
      SumOverIgnoresOthers(init, totals, c, totals[c] + d);
    } else {
      assert c in init;
      SumOverBump(init, totals, c, d);
    }
  }

  /** One more transaction adds its absolute amount to the sum over the categories. */
  lemma SumOverTxnStep(txns: seq<Transaction>)
    requires txns != []
    ensures var init, t := txns[..|txns| - 1], txns[|txns| - 1];
            (forall c :: c in CategoryOrder(init) ==> c in CategoryTotals(init))
            && (forall c :: c in CategoryOrder(txns) ==> c in CategoryTotals(txns))
            && SumOver(CategoryOrder(txns), CategoryTotals(txns)) == SumOver(CategoryOrder(init), CategoryTotals(init)) + Abs(t.amount)
  {
    var init, t := txns[..|txns| - 1], txns[|txns| - 1];
    var order, m, c, d := CategoryOrder(init), CategoryTotals(init), t.category, Abs(t.amount);
    OrderMatchesTotals(init);
    OrderMatchesTotals(txns);
    if c in order {
      assert CategoryOrder(txns) == order;
      assert CategoryTotals(txns) == m[c := m[c] + d];
      SumOverBump(order, m, c, d);
    } else {
      assert CategoryOrder(txns) == order + [c];
      assert CategoryTotals(txns) == m[c := 0.0 + d];
      SumOverIgnoresOthers(order, m, c, d);
      assert (order + [c])[..|order|] == order;
    }
  }

  /** The category totals add up to the total spent. */
  lemma {:induction false} TotalsAddUp(txns: seq<Transaction>)
    ensures forall c :: c in CategoryOrder(txns) ==> c in CategoryTotals(txns)
    ensures SumOver(CategoryOrder(txns), CategoryTotals(txns)) == TotalSpent(txns)
  {
    if txns != [] {
      var init := txns[..|txns| - 1];
      TotalsAddUp(init);
      SumOverTxnStep(txns);
      assert TotalSpent(txns) == TotalSpent(init) + Abs(txns[|txns| - 1].amount);
    }
  }

  /** The position of the first category of `order` with the largest total. */
  function TopIndex(order: seq<string>, totals: map<string, real>): (k: nat)
    requires order != [] && forall c :: c in order ==> c in totals
    ensures k < |order|
    ensures forall j :: 0 <= j < |order| ==> totals[order[j]] <= totals[order[k]]
    ensures forall j :: 0 <= j < k ==> totals[order[j]] < totals[order[k]]
  {
    if |order| == 1 then 0
    else
      var init := order[..|order| - 1];
      var b := TopIndex(init, totals);
      assert order[b] == init[b];
      if totals[order[|order| - 1]] > totals[order[b]] then |order| - 1 else b
  }

  /** `max(categories.items(), key=...)[0]`: the first category of `order`
      with the largest total. */
  function TopOf(order: seq<string>, totals: map<string, real>): (top: string)
    requires order != [] && forall c :: c in order ==> c in totals
    ensures top in order
    ensures forall c :: c in order ==> totals[c] <= totals[top]
    ensures exists i :: 0 <= i < |order| && order[i] == top && forall j :: 0 <= j < i ==> totals[order[j]] < totals[top]
  {
    var k := TopIndex(order, totals);
    order[k]
  }

  /** What `_analyze_spending` returns for a non-empty list; `order` is the
      iteration order of `distribution`. */
  datatype Spending = Spending(
    totalSpent: real,
    distribution: map<string, real>,
    order: seq<string>,
    topCategory: string,
    transactionCount: nat)

  /** The loop of `_analyze_spending`: each category's total, the order the
      categories first appear in, and the total spent. */
  method Tally(txns: seq<Transaction>) returns (categories: map<string, real>, order: seq<string>, total: real)
    ensures categories == CategoryTotals(txns) && order == CategoryOrder(txns) && total == TotalSpent(txns)
  {
    categories := map[];
    order := [];
    total := 0.0;
    var i := 0;
    while i < |txns|
      invariant 0 <= i <= |txns|
      invariant categories == CategoryTotals(txns[..i])
      invariant order == CategoryOrder(txns[..i])
      invariant total == TotalSpent(txns[..i])
    {
      assert txns[..i + 1][..i] == txns[..i];
      var t := txns[i];
      if t.category !in order {
        order := order + [t.category];
      }
      categories := categories[t.category := (if t.category in categories then categories[t.category] else 0.0) + Abs(t.amount)];
      total := total + Abs(t.amount);
      i := i + 1;
    }
    assert txns[..|txns|] == txns;
  }

  /** `_analyze_spending`: None (an empty dictionary) for no transactions. */
  method AnalyzeSpending(txns: seq<Transaction>) returns (s: Option<Spending>)
    ensures txns == [] <==> s.None?
    ensures s.Some? ==>
              s.value.totalSpent == TotalSpent(txns)
              && s.value.distribution == CategoryTotals(txns)
              && s.value.order == CategoryOrder(txns)
              && s.value.transactionCount == |txns|
              && s.value.order != []
              && (forall c :: c in s.value.order ==> c in s.value.distribution)
              && SumOver(s.value.order, s.value.distribution) == s.value.totalSpent
              && s.value.topCategory == TopOf(s.value.order, s.value.distribution)
  {
    if txns == [] {
      return None;
    }
    var categories, order, total := Tally(txns);
    OrderMatchesTotals(txns);
    TotalsAddUp(txns);
    var top := TopOf(order, categories);
    s := Some(Spending(total, categories, order, top, |txns|));
  }
}
