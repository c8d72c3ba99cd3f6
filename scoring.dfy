/**
 * The pure lookups the game-master screen computes from its state:
 * the selected question, the buzzer being judged (`gagnant`) and the
 * session winner chosen at close.
 */
module Scoring {
  import opened Types

  /** `k` is the first position of `s` whose element satisfies `p`. */
  ghost predicate IsFirstMatch<T>(s: seq<T>, p: T -> bool, k: int) {
    0 <= k < |s| && p(s[k]) && forall j :: 0 <= j < k ==> !p(s[j])
  }

  /** JavaScript's `Array.prototype.find`: the first element satisfying `p`. */
  function Find<T>(s: seq<T>, p: T -> bool): (r: Option<T>)
    ensures r.None? <==> forall j :: 0 <= j < |s| ==> !p(s[j])
    ensures r.Some? ==> exists k :: IsFirstMatch(s, p, k) && s[k] == r.value
  {
    if |s| == 0 then None
    else if p(s[0]) then
      assert IsFirstMatch(s, p, 0);
      Some(s[0])
    else
      var r := Find(s[1..], p);
      assert forall j :: 1 <= j < |s| ==> s[j] == s[1..][j - 1];
      assert r.Some? ==> exists k :: IsFirstMatch(s, p, k) && s[k] == r.value by {
        if r.Some? {
          var k :| IsFirstMatch(s[1..], p, k) && s[1..][k] == r.value;
          assert IsFirstMatch(s, p, k + 1);
        }
      }
      r
  }

  /** The id `getSelectedQuestion` looks for: `selectedQuestionId ?? -1`. */
  function QuestionKey(selectedQuestionId: Option<int>): int {
    match selectedQuestionId
    case Some(id) => id
    case None => -1
  }

  /**
   * `getSelectedQuestion`: the first question whose id is the selected one
   * (or -1 when nothing is selected), if any.
   */
  function GetSelectedQuestion(questions: seq<Question>, selectedQuestionId: Option<int>): (r: Option<Question>)
    ensures r.Some? ==> r.value in questions && r.value.id == QuestionKey(selectedQuestionId)
    ensures r.None? <==> forall q :: q in questions ==> q.id != QuestionKey(selectedQuestionId)
    ensures r.Some? ==> exists k ::
              && 0 <= k < |questions| && questions[k] == r.value
              && forall j :: 0 <= j < k ==> questions[j].id != QuestionKey(selectedQuestionId)
  {
    var key := QuestionKey(selectedQuestionId);
    Find(questions, (q: Question) => q.id == key)
  }

  /**
   * `gagnant`: the first registered buzzer whose id equals the id being
   * judged. The source compares both ids as strings; on integers that is
   * integer equality.
   */
  function Gagnant(gameBuzzers: seq<Buzzer>, premierBuzzerId: int): (r: Option<Buzzer>)
    ensures r.Some? ==> r.value in gameBuzzers && r.value.buzzerId == premierBuzzerId
    ensures r.None? <==> forall b :: b in gameBuzzers ==> b.buzzerId != premierBuzzerId
    ensures r.Some? ==> exists k ::
              && 0 <= k < |gameBuzzers| && gameBuzzers[k] == r.value
              && forall j :: 0 <= j < k ==> gameBuzzers[j].buzzerId != premierBuzzerId
  {
    Find(gameBuzzers, (b: Buzzer) => b.buzzerId == premierBuzzerId)
  }

  /**
   * The callback of the winner `reduce`, folded from the left over `s`
   * with accumulator `max`: an entry replaces the accumulator only when its
   * score is strictly greater.
   */
  function Reduce(s: seq<UserScore>, max: UserScore): (r: UserScore)
    ensures r == max || r in s
    ensures max.totalScore <= r.totalScore
    ensures forall j :: 0 <= j < |s| ==> s[j].totalScore <= r.totalScore
  {
    if |s| == 0 then max
    else
      var r := Reduce(s[1..], if s[0].totalScore > max.totalScore then s[0] else max);
      assert forall j :: 1 <= j < |s| ==> s[j] == s[1..][j - 1];
      r
  }

  /**
   * The session winner: `scores.reduce(..., scores[0])`. On an empty list
   * the reduce yields `undefined`, modelled as None.
   */
  function Winner(scores: seq<UserScore>): (r: Option<UserScore>)
    ensures r.None? <==> |scores| == 0
    ensures r.Some? ==> r.value in scores
    ensures r.Some? ==> forall j :: 0 <= j < |scores| ==> scores[j].totalScore <= r.value.totalScore
  {
    if |scores| == 0 then None else Some(Reduce(scores, scores[0]))
  }

  /** `k` holds a maximal score and every earlier entry scores strictly less. */
  ghost predicate IsFirstMaximum(s: seq<UserScore>, k: int) {
    && 0 <= k < |s|
    && (forall j :: 0 <= j < |s| ==> s[j].totalScore <= s[k].totalScore)
    && (forall j :: 0 <= j < k ==> s[j].totalScore < s[k].totalScore)
  }

  /**
   * The fold keeps its accumulator unless some entry beats it strictly, and
   * then ends on the first entry holding the maximum.
   */
  lemma {:induction false} ReduceFirstMaximum(s: seq<UserScore>, max: UserScore)
    ensures var r := Reduce(s, max);
      || (r == max && forall j :: 0 <= j < |s| ==> s[j].totalScore <= max.totalScore)
      || (exists k :: IsFirstMaximum(s, k) && r == s[k] && max.totalScore < s[k].totalScore)
  {
    if |s| > 0 {
      var next := if s[0].totalScore > max.totalScore then s[0] else max;
      var tail := s[1..];
      ReduceFirstMaximum(tail, next);
      var r := Reduce(tail, next);
      assert Reduce(s, max) == r;
      assert forall j :: 1 <= j < |s| ==> s[j] == tail[j - 1];
      if r == next && forall j :: 0 <= j < |tail| ==> tail[j].totalScore <= next.totalScore {
        if s[0].totalScore > max.totalScore {
          assert IsFirstMaximum(s, 0);
        }
      } else {
        var k :| IsFirstMaximum(tail, k) && r == tail[k] && next.totalScore < tail[k].totalScore;
        assert IsFirstMaximum(s, k + 1);
      }
    }
  }

  /**
   * The winner of a non-empty score list is its first maximum: no entry
   * scores more, and every entry before it scores strictly less.
   */
  lemma WinnerIsFirstMaximum(scores: seq<UserScore>)
    requires |scores| > 0
    ensures exists k :: IsFirstMaximum(scores, k) && Winner(scores) == Some(scores[k])
  {
    ReduceFirstMaximum(scores, scores[0]);
    if Winner(scores) == Some(scores[0]) && forall j :: 0 <= j < |scores| ==> scores[j].totalScore <= scores[0].totalScore {
      assert IsFirstMaximum(scores, 0);
    }
  }

  /** Scores 50, 80, 80: the tie goes to the second entry, the first 80. */
  lemma WinnerTieGoesToFirst(u1: string, u2: string, u3: string)
    ensures Winner([UserScore(u1, "u1", 50), UserScore(u2, "u2", 80), UserScore(u3, "u3", 80)])
         == Some(UserScore(u2, "u2", 80))
  {
    var s := [UserScore(u1, "u1", 50), UserScore(u2, "u2", 80), UserScore(u3, "u3", 80)];
    WinnerIsFirstMaximum(s);
    var k :| IsFirstMaximum(s, k) && Winner(s) == Some(s[k]);
    assert !IsFirstMaximum(s, 0) by { assert s[0].totalScore < s[1].totalScore; }
    assert !IsFirstMaximum(s, 2) by { assert s[1].totalScore == s[2].totalScore; }

  }
}
