/** The feedback list of utils/feedback_processor.py. The JSON file it is
    loaded from and saved to after every addition is not modelled: the list
    is a field, and the constructor takes what the file held. */
module FeedbackStore {
  import opened Wrappers
  import opened Models
  import Fractions

  /** The entries that `keep` accepts, in stored order. */
  function Select(fs: seq<Feedback>, keep: Feedback -> bool): seq<Feedback> {
    if fs == [] then []
    else Select(fs[..|fs| - 1], keep) + (if keep(fs[|fs| - 1]) then [fs[|fs| - 1]] else [])
  }

  /** A selection holds exactly the accepted entries, and no more than there are. */
  lemma {:induction false} SelectMembers(fs: seq<Feedback>, keep: Feedback -> bool)
    ensures forall f :: f in Select(fs, keep) <==> f in fs && keep(f)
    ensures |Select(fs, keep)| <= |fs|
  {
    if fs != [] {
      var init := fs[..|fs| - 1];
      SelectMembers(init, keep);
      assert fs == init + [fs[|fs| - 1]];
    }
  }

  /** The positions of the accepted entries, in increasing order. */
  function AcceptedPositions(fs: seq<Feedback>, keep: Feedback -> bool): (idx: seq<nat>)
    ensures forall j :: 0 <= j < |idx| ==> idx[j] < |fs|
    ensures forall j, k :: 0 <= j < k < |idx| ==> idx[j] < idx[k]
    ensures forall i :: 0 <= i < |fs| ==> (i in idx <==> keep(fs[i]))
  {
    if fs == [] then []
    else
      var init := AcceptedPositions(fs[..|fs| - 1], keep);
      init + (if keep(fs[|fs| - 1]) then [|fs| - 1] else [])
  }

  /** A selection lists the entries at the accepted positions, one for each,
      in stored order: order and repetitions are those of the list. */
  lemma {:induction false} SelectInStoredOrder(fs: seq<Feedback>, keep: Feedback -> bool)
    ensures var r := Select(fs, keep);
            var idx := AcceptedPositions(fs, keep);
            |r| == |idx| && forall j :: 0 <= j < |r| ==> r[j] == fs[idx[j]]
  {
    if fs != [] {
      var init := fs[..|fs| - 1];
      SelectInStoredOrder(init, keep);
      var idx := AcceptedPositions(init, keep);
      assert forall j :: 0 <= j < |idx| ==> fs[idx[j]] == init[idx[j]];
    }
  }

  /** `r` lists, in stored order, exactly the entries of `fs` at the positions
      that satisfy `keep`. */
  ghost predicate StoredSelection(r: seq<Feedback>, fs: seq<Feedback>, idx: seq<nat>) {
    |r| == |idx|
    && (forall j :: 0 <= j < |idx| ==> idx[j] < |fs| && r[j] == fs[idx[j]])
    && (forall j, k :: 0 <= j < k < |idx| ==> idx[j] < idx[k])
  }

  function SumRatings(fs: seq<Feedback>): int {
    if fs == [] then 0 else SumRatings(fs[..|fs| - 1]) + fs[|fs| - 1].rating
  }

  /** Each rating is between 1 and 5, so the sum lies between n and 5n. */
  lemma {:induction false} SumRatingsBounds(fs: seq<Feedback>)
    ensures |fs| <= SumRatings(fs) <= 5 * |fs|
  {
    if fs != [] {
      SumRatingsBounds(fs[..|fs| - 1]);
    }
  }

  /** The three difficulty answers that are counted. */
  const DifficultyKeys: set<string> := {"too_easy", "just_right", "too_hard"}

  function CountDifficulty(fs: seq<Feedback>, key: string): nat {
    if fs == [] then 0
    else CountDifficulty(fs[..|fs| - 1], key) + (if fs[|fs| - 1].difficultyRating == Some(key) then 1 else 0)
  }

  /** The three counts together never exceed the number of entries. */
  lemma {:induction false} CountsBounded(fs: seq<Feedback>)
    ensures CountDifficulty(fs, "too_easy") + CountDifficulty(fs, "just_right") + CountDifficulty(fs, "too_hard") <= |fs|
  {
    if fs != [] {
      CountsBounded(fs[..|fs| - 1]);
    }
  }

  class FeedbackProcessor {
    var feedbackData: seq<Feedback>

    /** The processor over the entries loaded from its file. */
    constructor (loaded: seq<Feedback>)
      ensures feedbackData == loaded
    {
      feedbackData := loaded;
    }

    /** `add_feedback`: one entry more, at the end. */
    method AddFeedback(f: Feedback)
      modifies this
      ensures feedbackData == old(feedbackData) + [f]
    {
      feedbackData := feedbackData + [f];
    }

    /** `get_quiz_feedback`. */
    function GetQuizFeedback(quizId: string): (r: seq<Feedback>)
      reads this
      ensures forall f :: f in r <==> f in feedbackData && f.quizId == quizId
      ensures |r| <= |feedbackData|
      ensures exists idx :: StoredSelection(r, feedbackData, idx)
                            && forall i :: 0 <= i < |feedbackData| ==> (i in idx <==> feedbackData[i].quizId == quizId)
    {
      var keep := (f: Feedback) => f.quizId == quizId;
      SelectMembers(feedbackData, keep);
      SelectInStoredOrder(feedbackData, keep);
      var idx := AcceptedPositions(feedbackData, keep);
      assert StoredSelection(Select(feedbackData, keep), feedbackData, idx);
      Select(feedbackData, keep)
    }

    /** `get_user_feedback`. */
    function GetUserFeedback(userId: string): (r: seq<Feedback>)
      reads this
      ensures forall f :: f in r <==> f in feedbackData && f.userId == userId
      ensures |r| <= |feedbackData|
      ensures exists idx :: StoredSelection(r, feedbackData, idx)
                            && forall i :: 0 <= i < |feedbackData| ==> (i in idx <==> feedbackData[i].userId == userId)
    {
      var keep := (f: Feedback) => f.userId == userId;
      SelectMembers(feedbackData, keep);
      SelectInStoredOrder(feedbackData, keep);
      var idx := AcceptedPositions(feedbackData, keep);
      assert StoredSelection(Select(feedbackData, keep), feedbackData, idx);
      Select(feedbackData, keep)
    }

    /** `get_concept_feedback`: the concept is not consulted, every entry is returned. */
    function GetConceptFeedback(concept: string): (r: seq<Feedback>)
      reads this
      ensures r == feedbackData
    {
      feedbackData
    }

    /** `get_average_rating`: the mean rating, or 0 with no entries; the
        concept is not consulted. */
    function GetAverageRating(concept: string): (avg: real)
      reads this
      ensures feedbackData == [] ==> avg == 0.0
      ensures feedbackData != [] ==> avg * (|feedbackData| as real) == SumRatings(feedbackData) as real
      ensures feedbackData != [] ==> 1.0 <= avg <= 5.0
    {
      if feedbackData == [] then 0.0
      else
        var n := |feedbackData| as real;
        var s := SumRatings(feedbackData) as real;
        SumRatingsBounds(feedbackData);
        assert 1.0 * n <= s <= 5.0 * n;
        Fractions.MeanBounds(s, n, 1.0, 5.0);
        s / n
    }

    /** `get_difficulty_feedback`: a count per difficulty answer. */
    method GetDifficultyFeedback() returns (distribution: map<string, nat>)
      ensures distribution.Keys == DifficultyKeys
      ensures forall k :: k in distribution ==> distribution[k] == CountDifficulty(feedbackData, k)
      ensures distribution["too_easy"] + distribution["just_right"] + distribution["too_hard"] <= |feedbackData|
    {
      distribution := map["too_easy" := 0, "just_right" := 0, "too_hard" := 0];
      var i := 0;
      while i < |feedbackData|
        invariant 0 <= i <= |feedbackData|
        invariant distribution.Keys == DifficultyKeys
        invariant forall k :: k in distribution ==> distribution[k] == CountDifficulty(feedbackData[..i], k)
      {
        assert feedbackData[..i + 1][..i] == feedbackData[..i];
        var diff := feedbackData[i].difficultyRating;
        if diff.Some? && diff.value != "" && diff.value in distribution {
          distribution := distribution[diff.value := distribution[diff.value] + 1];
        }
        i := i + 1;
      }
      assert feedbackData[..|feedbackData|] == feedbackData;
      CountsBounded(feedbackData);
    }
  }

  /** An addition shows up at the end of the queries it matches and leaves
      the others as they were. */
  lemma AddedFeedbackIsQueried(fs: seq<Feedback>, f: Feedback, quizId: string)
    ensures Select(fs + [f], (g: Feedback) => g.quizId == quizId)
            == Select(fs, (g: Feedback) => g.quizId == quizId) + (if f.quizId == quizId then [f] else [])
  {
    assert (fs + [f])[..|fs|] == fs;
  }
}
