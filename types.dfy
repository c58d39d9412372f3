/** The value types of the assessment: question categories, the three
    recommendations, the user's contact details, questions, answer sets and
    the meaning of the step counter. */
module Types {

  datatype Option<+T> = None | Some(value: T)

  /** A question belongs to exactly one of two categories. */
  datatype Category = Leadership | TeamBuilding

  /** The enum's string value for each category. */
  function CategoryLabel(c: Category): string
  {
    match c
    case Leadership => "Leadership-Oriented"
    case TeamBuilding => "Team-Building-Oriented"
  }

  lemma CategoryLabelInjective(c1: Category, c2: Category)
    ensures CategoryLabel(c1) == CategoryLabel(c2) <==> c1 == c2
  {
  }

  /** The three possible recommendations. */
  datatype AssessmentResult = LeadershipTraining | TeamBuildingTraining | BothTrainings

  /** The string each recommendation is shown, stored and mailed as. */
  function ResultText(r: AssessmentResult): (s: string)
    ensures |s| > 0
  {
    match r
    case LeadershipTraining => "Leadership Training"
    case TeamBuildingTraining => "Team-Building Training"
    case BothTrainings => "Both Leadership and Team-Building Training"
  }

  /** The three result strings are pairwise distinct, so a string names at
      most one recommendation. */
  lemma ResultTextInjective(r1: AssessmentResult, r2: AssessmentResult)
    ensures ResultText(r1) == ResultText(r2) <==> r1 == r2
  {
  }

  /** Every recommendation is shown as one of exactly three strings. */
  lemma ResultTextIsOneOfThree(r: AssessmentResult)
    ensures ResultText(r) in {"Leadership Training", "Team-Building Training",
                              "Both Leadership and Team-Building Training"}
  {
  }

  /** Contact details collected before the first question. */
  datatype UserDetails = UserDetails(name: string, email: string, phone: string)

  /** All three contact fields are filled in. */
  predicate DetailsComplete(u: UserDetails)
  {
    u.name != "" && u.email != "" && u.phone != ""
  }

  datatype Question = Question(id: int, text: string, category: Category)

  /** Question id to Yes (true) or No (false). */
  type Answers = map<int, bool>

  /** What the step counter stands for. */
  datatype Phase = DetailsForm | Asking(number: nat) | Finished

  /** Step 0 is the details form, steps 1..8 ask question 1..8 and step 9
      shows the result; no other step value has a meaning. */
  function PhaseOf(step: int): (p: Option<Phase>)
    ensures p.Some? <==> 0 <= step <= 9
    ensures p.Some? && p.value.Asking? ==> p.value.number == step
  {
    if step == 0 then Some(DetailsForm)
    else if 1 <= step <= 8 then Some(Asking(step))
    else if step == 9 then Some(Finished)
    else None
  }
}
