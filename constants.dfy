/** The fixed question table: eight questions, four per category, in order. */
module Constants {
  import opened Types

  const QUESTIONS: seq<Question> := [
    Question(1, "Do you struggle to set clear goals and expectations for your team?", Leadership),
    Question(2, "Do you find it difficult to adapt your leadership style to different personalities or situations?", Leadership),
    Question(3, "Do you hesitate when making decisions that affect the whole team?", Leadership),
    Question(4, "Do you often avoid giving constructive feedback because you worry about conflict?", Leadership),
    Question(5, "Do team members frequently misunderstand each other or miscommunicate?", TeamBuilding),
    Question(6, "Do you notice low trust or lack of cohesion among team members?", TeamBuilding),
    Question(7, "Do conflicts between team members often remain unresolved or escalate?", TeamBuilding),
    Question(8, "Do projects regularly stall because collaboration breaks down?", TeamBuilding)
  ]

  /** The ids that occur in the table. */
  function QuestionIds(): set<int>
  {
    set i | 0 <= i < |QUESTIONS| :: QUESTIONS[i].id
  }

  /** How many questions of `qs` belong to category `c`. */
  function CountInCategory(qs: seq<Question>, c: Category): (n: nat)
    ensures n <= |qs|
  {
    if qs == [] then 0
    else CountInCategory(qs[..|qs| - 1], c) + (if qs[|qs| - 1].category == c then 1 else 0)
  }

  lemma TableSize()
    ensures |QUESTIONS| == 8
  {
  }

  /** Each question's id is its position plus one, so ids are 1..8 in order
      and no two questions share an id. */
  lemma IdsArePositions()
    ensures forall i :: 0 <= i < |QUESTIONS| ==> QUESTIONS[i].id == i + 1
    ensures forall i, j :: 0 <= i < j < |QUESTIONS| ==> QUESTIONS[i].id != QUESTIONS[j].id
  {
  }

  /** The set of question ids is exactly {1, ..., 8}. */
  lemma QuestionIdsAreOneToEight()
    ensures forall id :: id in QuestionIds() <==> 1 <= id <= 8
  {
    IdsArePositions();
    forall id | 1 <= id <= 8
      ensures id in QuestionIds()
    {
      assert QUESTIONS[id - 1].id == id;
    }
  }

  /** Questions 1 to 4 are the leadership questions. */
  lemma LeadershipQuestions()
    ensures forall i :: 0 <= i < |QUESTIONS| ==> (QUESTIONS[i].category == Leadership <==> QUESTIONS[i].id <= 4)
  {
  }

  /** Questions 5 to 8 are the team-building questions. */
  lemma TeamBuildingQuestions()
    ensures forall i :: 0 <= i < |QUESTIONS| ==> (QUESTIONS[i].category == TeamBuilding <==> 5 <= QUESTIONS[i].id)
  {
  }

  /** Counting a prefix one question longer adds that question's share. */
  lemma CountInCategoryStep(qs: seq<Question>, k: nat, c: Category)
    requires 0 < k <= |qs|
    ensures CountInCategory(qs[..k], c)
         == CountInCategory(qs[..k - 1], c) + (if qs[k - 1].category == c then 1 else 0)
  {
    assert qs[..k][..k - 1] == qs[..k - 1];
  }

  /** Each category holds exactly four questions. */
  lemma CategorySizes()
    ensures CountInCategory(QUESTIONS, Leadership) == 4
    ensures CountInCategory(QUESTIONS, TeamBuilding) == 4
  {
    assert QUESTIONS[..0] == [];
    for k := 1 to |QUESTIONS| + 1
      invariant CountInCategory(QUESTIONS[..k - 1], Leadership) == if k - 1 <= 4 then k - 1 else 4
      invariant CountInCategory(QUESTIONS[..k - 1], TeamBuilding) == if k - 1 <= 4 then 0 else k - 5
    {
      CountInCategoryStep(QUESTIONS, k, Leadership);
      CountInCategoryStep(QUESTIONS, k, TeamBuilding);
    }
    assert QUESTIONS[..|QUESTIONS|] == QUESTIONS;
  }
}
