/** The scoring rule: count the Yes answers per category over the question
    table, then recommend the category with the strictly larger count, or
    both trainings on a tie. */
module Helpers {
  import opened Types
  import opened Constants

  /** An answer set says Yes to `id` when it maps `id` to true; a missing
      entry reads as No. */
  predicate IsYes(answers: Answers, id: int)
  {
    id in answers && answers[id]
  }

  /** The number of questions of `qs` in category `c` answered Yes. */
  function CountYes(answers: Answers, qs: seq<Question>, c: Category): (n: nat)
    ensures n <= |qs|
  {
    if qs == [] then 0
    else
      var q := qs[|qs| - 1];
      CountYes(answers, qs[..|qs| - 1], c) + (if IsYes(answers, q.id) && q.category == c then 1 else 0)
  }

  function LeadershipScore(answers: Answers): nat
  {
    CountYes(answers, QUESTIONS, Leadership)
  }

  function TeamBuildingScore(answers: Answers): nat
  {
    CountYes(answers, QUESTIONS, TeamBuilding)
  }

  /** The three-way choice between the two scores. */
  function Classify(leadershipScore: int, teamBuildingScore: int): AssessmentResult
  {
    if leadershipScore > teamBuildingScore then LeadershipTraining
    else if teamBuildingScore > leadershipScore then TeamBuildingTraining
    else BothTrainings
  }

  /** The recommendation for an answer set. */
  function Recommend(answers: Answers): AssessmentResult
  {
    Classify(LeadershipScore(answers), TeamBuildingScore(answers))
  }

  /** The question ids the answer set says Yes to. */
  function YesIds(answers: Answers): set<int>
  {
    set id | id in QuestionIds() && IsYes(answers, id)
  }

  /** The scoring pass as the source runs it: one pass over the table with
      two counters, then the if-chain. */
  method CalculateResult(answers: Answers) returns (r: AssessmentResult)
    ensures r == Recommend(answers)
  {
    var leadershipScore := 0;
    var teamBuildingScore := 0;
    for i := 0 to |QUESTIONS|
      invariant leadershipScore == CountYes(answers, QUESTIONS[..i], Leadership)
      invariant teamBuildingScore == CountYes(answers, QUESTIONS[..i], TeamBuilding)
    {
      var q := QUESTIONS[i];
      assert QUESTIONS[..i + 1][..i] == QUESTIONS[..i];
      if IsYes(answers, q.id) {
        if q.category == Leadership {
          leadershipScore := leadershipScore + 1;
        } else {
          teamBuildingScore := teamBuildingScore + 1;
        }
      }
    }
    assert QUESTIONS[..|QUESTIONS|] == QUESTIONS;
    if leadershipScore > teamBuildingScore {
      r := LeadershipTraining;
    } else if teamBuildingScore > leadershipScore {
      r := TeamBuildingTraining;
    } else {
      r := BothTrainings;
    }
  }

  /** Tie-break rule: strict majority wins, equal scores give both. */
  lemma RecommendTieBreak(answers: Answers)
    ensures Recommend(answers) == LeadershipTraining <==> LeadershipScore(answers) > TeamBuildingScore(answers)
    ensures Recommend(answers) == TeamBuildingTraining <==> TeamBuildingScore(answers) > LeadershipScore(answers)
    ensures Recommend(answers) == BothTrainings <==> LeadershipScore(answers) == TeamBuildingScore(answers)
  {
  }

  // ---------------------------------------------------------------------
  // The per-category counts against the whole answer set

  /** Counting a prefix one question longer adds that question's share. */
  lemma CountYesStep(answers: Answers, qs: seq<Question>, k: nat, c: Category)
    requires 0 < k <= |qs|
    ensures CountYes(answers, qs[..k], c)
         == CountYes(answers, qs[..k - 1], c) + (if IsYes(answers, qs[k - 1].id) && qs[k - 1].category == c then 1 else 0)
  {
    assert qs[..k][..k - 1] == qs[..k - 1];
  }

  /** The ids among 1..k answered Yes. */
  function YesUpTo(answers: Answers, k: int): set<int>
  {
    set id | 1 <= id <= k && IsYes(answers, id)
  }

  lemma YesUpToStep(answers: Answers, k: int)
    requires 1 <= k
    ensures |YesUpTo(answers, k)| == |YesUpTo(answers, k - 1)| + (if IsYes(answers, k) then 1 else 0)
  {
    if IsYes(answers, k) {
      assert YesUpTo(answers, k) == YesUpTo(answers, k - 1) + {k};
    } else {
      assert YesUpTo(answers, k) == YesUpTo(answers, k - 1);
    }
  }

  /** Over the first `k` questions the two category counts add up to the
      number of ids among 1..k answered Yes. */
  lemma {:induction false} PrefixCountsAddUp(answers: Answers, k: nat)
    requires k <= |QUESTIONS|
    ensures CountYes(answers, QUESTIONS[..k], Leadership) + CountYes(answers, QUESTIONS[..k], TeamBuilding)
         == |YesUpTo(answers, k)|
  {
    if k == 0 {
      assert YesUpTo(answers, 0) == {};
    } else {
      PrefixCountsAddUp(answers, k - 1);
      CountYesStep(answers, QUESTIONS, k, Leadership);
      CountYesStep(answers, QUESTIONS, k, TeamBuilding);
      IdsArePositions();
      YesUpToStep(answers, k);
    }
  }

  /** The two scores add up to the number of question ids answered Yes. */
  lemma ScoresAddUpToYesCount(answers: Answers)
    ensures LeadershipScore(answers) + TeamBuildingScore(answers) == |YesIds(answers)|
  {
    PrefixCountsAddUp(answers, |QUESTIONS|);
    assert QUESTIONS[..|QUESTIONS|] == QUESTIONS;
    QuestionIdsAreOneToEight();
    assert YesIds(answers) == YesUpTo(answers, |QUESTIONS|);
  }

  /** When every key of the answer set is a question id, the two scores add
      up to the number of true values in the map. */
  lemma ScoresAddUpToTrueValues(answers: Answers)
    requires answers.Keys <= QuestionIds()
    ensures LeadershipScore(answers) + TeamBuildingScore(answers) == |set id | id in answers && answers[id]|
  {
    ScoresAddUpToYesCount(answers);
    assert YesIds(answers) == set id | id in answers && answers[id];
  }

  /** No more Yes answers are counted in a category than it has questions. */
  lemma {:induction false} CountYesWithinCategory(answers: Answers, qs: seq<Question>, c: Category)
    ensures CountYes(answers, qs, c) <= CountInCategory(qs, c)
  {
    if qs != [] {
      CountYesWithinCategory(answers, qs[..|qs| - 1], c);
    }
  }

  /** Each score is at most four, the size of its category. */
  lemma ScoreBounds(answers: Answers)
    ensures LeadershipScore(answers) <= 4
    ensures TeamBuildingScore(answers) <= 4
  {
    CountYesWithinCategory(answers, QUESTIONS, Leadership);
    CountYesWithinCategory(answers, QUESTIONS, TeamBuilding);
    CategorySizes();
  }

  // ---------------------------------------------------------------------
  // What the counts depend on

  /** Two answer sets that agree on Yes for every question of `qs` give the
      same count. */
  lemma {:induction false} CountYesAgree(a: Answers, b: Answers, qs: seq<Question>, c: Category)
    requires forall i :: 0 <= i < |qs| ==> (IsYes(a, qs[i].id) <==> IsYes(b, qs[i].id))
    ensures CountYes(a, qs, c) == CountYes(b, qs, c)
  {
    if qs != [] {
      var init := qs[..|qs| - 1];
      assert forall i :: 0 <= i < |init| ==> init[i] == qs[i];
      CountYesAgree(a, b, init, c);
    }
  }

  /** Scores and result depend only on which question ids are answered Yes. */
  lemma RecommendDependsOnlyOnYes(a: Answers, b: Answers)
    requires forall id :: id in QuestionIds() ==> (IsYes(a, id) <==> IsYes(b, id))
    ensures LeadershipScore(a) == LeadershipScore(b)
    ensures TeamBuildingScore(a) == TeamBuildingScore(b)
    ensures Recommend(a) == Recommend(b)
  {
    assert forall i :: 0 <= i < |QUESTIONS| ==> QUESTIONS[i].id in QuestionIds();
    CountYesAgree(a, b, QUESTIONS, Leadership);
    CountYesAgree(a, b, QUESTIONS, TeamBuilding);
  }

  /** Keys that are not question ids are ignored. */
  lemma ForeignKeysIgnored(answers: Answers)
    ensures var restricted := map id | id in answers && id in QuestionIds() :: answers[id];
      && LeadershipScore(restricted) == LeadershipScore(answers)
      && TeamBuildingScore(restricted) == TeamBuildingScore(answers)
      && Recommend(restricted) == Recommend(answers)
  {
    var restricted := map id | id in answers && id in QuestionIds() :: answers[id];
    RecommendDependsOnlyOnYes(restricted, answers);
  }

  /** A question left unanswered counts exactly as a No. */
  lemma AbsentCountsAsNo(answers: Answers, id: int)
    requires id !in answers
    ensures LeadershipScore(answers[id := false]) == LeadershipScore(answers)
    ensures TeamBuildingScore(answers[id := false]) == TeamBuildingScore(answers)
    ensures Recommend(answers[id := false]) == Recommend(answers)
  {
    RecommendDependsOnlyOnYes(answers[id := false], answers);
  }

  // ---------------------------------------------------------------------
  // Whole-category answer patterns

  /** When every question of category `c` is answered Yes the count is the
      category's size. */
  lemma {:induction false} CountYesAll(answers: Answers, qs: seq<Question>, c: Category)
    requires forall i :: 0 <= i < |qs| && qs[i].category == c ==> IsYes(answers, qs[i].id)
    ensures CountYes(answers, qs, c) == CountInCategory(qs, c)
  {
    if qs != [] {
      var init := qs[..|qs| - 1];
      assert forall i :: 0 <= i < |init| ==> init[i] == qs[i];
      CountYesAll(answers, init, c);
    }
  }

  /** When no question of category `c` is answered Yes the count is zero. */
  lemma {:induction false} CountYesNone(answers: Answers, qs: seq<Question>, c: Category)
    requires forall i :: 0 <= i < |qs| && qs[i].category == c ==> !IsYes(answers, qs[i].id)
    ensures CountYes(answers, qs, c) == 0
  {
    if qs != [] {
      var init := qs[..|qs| - 1];
      assert forall i :: 0 <= i < |init| ==> init[i] == qs[i];
      CountYesNone(answers, init, c);
    }
  }

  /** Yes to all of 1..4 and No to all of 5..8 recommends leadership
      training, with scores four and zero. */
  lemma AllLeadershipYes(answers: Answers)
    requires forall id :: 1 <= id <= 4 ==> IsYes(answers, id)
    requires forall id :: 5 <= id <= 8 ==> !IsYes(answers, id)
    ensures LeadershipScore(answers) == 4 && TeamBuildingScore(answers) == 0
    ensures Recommend(answers) == LeadershipTraining
  {
    IdsArePositions();
    LeadershipQuestions();
    CategorySizes();
    CountYesAll(answers, QUESTIONS, Leadership);
    CountYesNone(answers, QUESTIONS, TeamBuilding);
  }

  /** Yes to all of 5..8 and No to all of 1..4 recommends team-building
      training, with scores zero and four. */
  lemma AllTeamBuildingYes(answers: Answers)
    requires forall id :: 1 <= id <= 4 ==> !IsYes(answers, id)
    requires forall id :: 5 <= id <= 8 ==> IsYes(answers, id)
    ensures LeadershipScore(answers) == 0 && TeamBuildingScore(answers) == 4
    ensures Recommend(answers) == TeamBuildingTraining
  {
    IdsArePositions();
    LeadershipQuestions();
    CategorySizes();
    CountYesNone(answers, QUESTIONS, Leadership);
    CountYesAll(answers, QUESTIONS, TeamBuilding);
  }

  /** No Yes at all, which includes the empty answer set, recommends both
      trainings with scores zero and zero. */
  lemma AllNoGivesBoth(answers: Answers)
    requires forall id :: !IsYes(answers, id)
    ensures LeadershipScore(answers) == 0 && TeamBuildingScore(answers) == 0
    ensures Recommend(answers) == BothTrainings
  {
    CountYesNone(answers, QUESTIONS, Leadership);
    CountYesNone(answers, QUESTIONS, TeamBuilding);
  }

  lemma EmptyAnswersGiveBoth()
    ensures Recommend(map[]) == BothTrainings
  {
    AllNoGivesBoth(map[]);
  }

  /** Answers {1, 2, 3, 4 Yes; 5, 6, 7, 8 No}: scores 4 and 0, leadership. */
  lemma ScenarioLeadership()
    ensures var a := map[1 := true, 2 := true, 3 := true, 4 := true,
                         5 := false, 6 := false, 7 := false, 8 := false];
      LeadershipScore(a) == 4 && TeamBuildingScore(a) == 0 && Recommend(a) == LeadershipTraining
  {
    var a := map[1 := true, 2 := true, 3 := true, 4 := true,
                 5 := false, 6 := false, 7 := false, 8 := false];
    AllLeadershipYes(a);
  }

  /** Answers {1, 5, 6 Yes; the rest No}: scores 1 and 2, team building. */
  lemma ScenarioTeamBuilding()
    ensures var a := map[1 := true, 2 := false, 3 := false, 4 := false,
                         5 := true, 6 := true, 7 := false, 8 := false];
      LeadershipScore(a) == 1 && TeamBuildingScore(a) == 2 && Recommend(a) == TeamBuildingTraining
  {
    var a := map[1 := true, 2 := false, 3 := false, 4 := false,
                 5 := true, 6 := true, 7 := false, 8 := false];
    assert QUESTIONS[..0] == [];
    for k := 1 to |QUESTIONS| + 1
      invariant CountYes(a, QUESTIONS[..k - 1], Leadership) == if k == 1 then 0 else 1
      invariant CountYes(a, QUESTIONS[..k - 1], TeamBuilding) == if k <= 5 then 0 else if k == 6 then 1 else 2
    {
      CountYesStep(a, QUESTIONS, k, Leadership);
      CountYesStep(a, QUESTIONS, k, TeamBuilding);
    }
    assert QUESTIONS[..|QUESTIONS|] == QUESTIONS;
  }

  /** All eight answers No: scores 0 and 0, both trainings. */
  lemma ScenarioAllNo()
    ensures var a := map[1 := false, 2 := false, 3 := false, 4 := false,
                         5 := false, 6 := false, 7 := false, 8 := false];
      LeadershipScore(a) == 0 && TeamBuildingScore(a) == 0 && Recommend(a) == BothTrainings
  {
    var a := map[1 := false, 2 := false, 3 := false, 4 := false,
                 5 := false, 6 := false, 7 := false, 8 := false];
    AllNoGivesBoth(a);
  }
}
