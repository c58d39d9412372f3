/** The client-side questionnaire: a step counter over the details form,
    the eight questions and the result screen, the answer set it builds and
    the submission it triggers after the last answer. Each handler is one
    atomic transition. The network request is an abstract outcome passed
    in, and the request body that would be sent is returned. */
module Questionnaire {
  import opened Types
  import opened Constants
  import opened Helpers
  import Submit

  /** The step that shows the result. */
  const TotalSteps: nat := |QUESTIONS| + 1

  const SubmissionErrorMessage := "There was an error saving your results. However, your assessment is complete."

  /** The body the client posts to the submission endpoint. */
  datatype Payload = Payload(
    name: string,
    email: string,
    phone: string,
    result: AssessmentResult,
    leadershipScore: nat,
    teamBuildingScore: nat)

  /** What the request does: it fails before a response arrives, or a
      response arrives with its `ok` flag. */
  datatype FetchOutcome = NetworkError | Responded(ok: bool)

  /** What one answer led to. */
  datatype AnswerOutcome = OutOfRange | Advanced | Submitted(payload: Payload)

  datatype DetailField = NameField | EmailField | PhoneField

  /** The ids of the questions that come before `step`. */
  function AnsweredIds(step: int): set<int>
  {
    set i | 0 <= i < |QUESTIONS| && i + 1 < step :: QUESTIONS[i].id
  }

  /** The score recount done before posting. It runs the same pass as the
      scoring rule with its own two counters. */
  method RecountScores(finalAnswers: Answers) returns (lScore: nat, tScore: nat)
    ensures lScore == LeadershipScore(finalAnswers)
    ensures tScore == TeamBuildingScore(finalAnswers)
    ensures Classify(lScore, tScore) == Recommend(finalAnswers)
    ensures lScore + tScore == |YesIds(finalAnswers)|
  {
    lScore, tScore := 0, 0;
    for i := 0 to |QUESTIONS|
      invariant lScore == CountYes(finalAnswers, QUESTIONS[..i], Leadership)
      invariant tScore == CountYes(finalAnswers, QUESTIONS[..i], TeamBuilding)
    {
      var q := QUESTIONS[i];
      CountYesStep(finalAnswers, QUESTIONS, i + 1, Leadership);
      CountYesStep(finalAnswers, QUESTIONS, i + 1, TeamBuilding);
      if IsYes(finalAnswers, q.id) {
        if q.category == Leadership {
          lScore := lScore + 1;
        } else {
          tScore := tScore + 1;
        }
      }
    }
    assert QUESTIONS[..|QUESTIONS|] == QUESTIONS;
    ScoresAddUpToYesCount(finalAnswers);
  }

  /** The request the client sends for a payload. */
  function ToRequest(p: Payload): Submit.Request
  {
    Submit.Request("POST", Some(Submit.RequestBody(
      Some(p.name), Some(p.email), Some(p.phone), Some(ResultText(p.result)),
      Some(p.leadershipScore), Some(p.teamBuildingScore))))
  }

  /** A payload with a name and an e-mail passes both checks of the
      endpoint, so its outcome depends only on the database and the mailer. */
  lemma PayloadIsAccepted(p: Payload)
    requires p.name != "" && p.email != ""
    ensures Submit.Accepted(ToRequest(p))
    ensures ToRequest(p).body.value.result == Some(ResultText(p.result))
  {
  }

  class App {
    var step: nat
    var user: UserDetails
    var answers: Answers
    var isSubmitting: bool
    var submissionError: Option<string>
    var finalResult: Option<AssessmentResult>

    /** The invariant the handlers keep between transitions. */
    ghost predicate Valid()
      reads this
    {
      && step <= TotalSteps
      && (step >= 1 ==> DetailsComplete(user))
      && answers.Keys == AnsweredIds(step)
      && !isSubmitting
      && (step < TotalSteps ==> finalResult == None && submissionError == None)
      && (step == TotalSteps ==> finalResult == Some(Recommend(answers)))
    }

    constructor ()
      ensures Valid()
      ensures step == 0 && user == UserDetails("", "", "") && answers == map[]
      ensures !isSubmitting && submissionError == None && finalResult == None
    {
      step := 0;
      user := UserDetails("", "", "");
      answers := map[];
      isSubmitting := false;
      submissionError := None;
      finalResult := None;
    }

    /** Typing into one field of the details form. The form is shown only
        at step 0. */
    method ChangeDetail(field: DetailField, value: string)
      requires Valid() && step == 0
      modifies this
      ensures Valid()
      ensures user == match field
        case NameField => old(user).(name := value)
        case EmailField => old(user).(email := value)
        case PhoneField => old(user).(phone := value)
      ensures step == old(step) && answers == old(answers) && isSubmitting == old(isSubmitting)
      ensures submissionError == old(submissionError) && finalResult == old(finalResult)
    {
      match field {
        case NameField => user := user.(name := value);
        case EmailField => user := user.(email := value);
        case PhoneField => user := user.(phone := value);
      }
    }

    /** Submitting the details form. The form is shown only at step 0. */
    method HandleStart()
      requires Valid() && step == 0
      modifies this
      ensures Valid()
      ensures step == (if DetailsComplete(old(user)) then 1 else 0)
      ensures user == old(user) && answers == old(answers) && isSubmitting == old(isSubmitting)
      ensures submissionError == old(submissionError) && finalResult == old(finalResult)
    {
      if user.name != "" && user.email != "" && user.phone != "" {
        step := 1;
      }
    }

    /** The question on screen: defined exactly on steps 1..8. */
    function CurrentQuestion(): (q: Option<Question>)
      reads this
      ensures q.Some? <==> PhaseOf(step) == Some(Asking(step))
      ensures q.Some? ==> q.value == QUESTIONS[step - 1] && q.value.id == step
      ensures q.Some? ==> (q.value.category == Leadership <==> step <= 4)
    {
      IdsArePositions();
      LeadershipQuestions();
      if step > 0 && step <= |QUESTIONS| then Some(QUESTIONS[step - 1]) else None
    }

    /** Answering the current question. Outside steps 1..8 there is no
        current question and nothing changes. Before the last question the
        step advances. After the last one the result is computed, the
        payload is posted and the result screen is shown, whether or not the
        request succeeded. */
    method HandleAnswer(answer: bool, response: FetchOutcome) returns (outcome: AnswerOutcome)
      requires Valid()
      modifies this
      ensures Valid()
      ensures user == old(user)
      ensures outcome == OutOfRange <==> old(step) == 0 || old(step) > |QUESTIONS|
      ensures outcome == OutOfRange ==>
        step == old(step) && answers == old(answers)
        && submissionError == old(submissionError) && finalResult == old(finalResult)
      ensures outcome != OutOfRange ==> answers == old(answers)[QUESTIONS[old(step) - 1].id := answer]
      ensures outcome != OutOfRange ==> answers == old(answers)[old(step) := answer]
      ensures outcome == Advanced <==> 1 <= old(step) < |QUESTIONS|
      ensures outcome == Advanced ==>
        step == old(step) + 1 && submissionError == old(submissionError) && finalResult == old(finalResult)
      ensures outcome.Submitted? <==> old(step) == |QUESTIONS|
      ensures outcome.Submitted? ==>
        && step == TotalSteps
        && finalResult == Some(Recommend(answers))
        && outcome.payload == Payload(user.name, user.email, user.phone, Recommend(answers),
                                      LeadershipScore(answers), TeamBuildingScore(answers))
        && Classify(outcome.payload.leadershipScore, outcome.payload.teamBuildingScore) == outcome.payload.result
        && Submit.Accepted(ToRequest(outcome.payload))
        && (submissionError == None <==> response == Responded(true))
        && (submissionError != None ==> submissionError == Some(SubmissionErrorMessage))
    {
      if step == 0 || step > |QUESTIONS| {
        // QUESTIONS[step - 1] is undefined here, so reading its id throws
        // before any state is set.
        return OutOfRange;
      }
      IdsArePositions();
      var currentQuestionId := QUESTIONS[step - 1].id;
      var newAnswers := answers[currentQuestionId := answer];
      assert AnsweredIds(step + 1) == AnsweredIds(step) + {currentQuestionId};
      answers := newAnswers;
      if step < |QUESTIONS| {
        step := step + 1;
        outcome := Advanced;
      } else {
        var payload := SubmitAssessment(newAnswers, response);
        outcome := Submitted(payload);
      }
    }

    /** The submission after the last answer. */
    method SubmitAssessment(finalAnswers: Answers, response: FetchOutcome) returns (payload: Payload)
      requires step == |QUESTIONS| && DetailsComplete(user) && finalAnswers == answers
      modifies this
      ensures step == TotalSteps && !isSubmitting
      ensures user == old(user) && answers == old(answers)
      ensures finalResult == Some(Recommend(finalAnswers))
      ensures payload == Payload(user.name, user.email, user.phone, Recommend(finalAnswers),
                                 LeadershipScore(finalAnswers), TeamBuildingScore(finalAnswers))
      ensures Submit.Accepted(ToRequest(payload))
      ensures submissionError == (if response == Responded(true) then None else Some(SubmissionErrorMessage))
    {
      isSubmitting := true;
      submissionError := None;
      var result := CalculateResult(finalAnswers);
      finalResult := Some(result);
      var lScore, tScore := RecountScores(finalAnswers);
      payload := Payload(user.name, user.email, user.phone, result, lScore, tScore);
      PayloadIsAccepted(payload);
      if response == Responded(true) {
        step := TotalSteps;
      } else {
        submissionError := Some(SubmissionErrorMessage);
        step := TotalSteps;
      }
      isSubmitting := false;
    }
  }

  /** Once the result screen is reached, the answer set holds exactly the
      eight question ids. */
  lemma FinishedAnswersCoverTable(app: App)
    requires app.Valid() && app.step == TotalSteps
    ensures app.answers.Keys == QuestionIds()
  {
    assert AnsweredIds(TotalSteps) == QuestionIds();
  }

  /** Every state the handlers keep gives the step one of the meanings of
      the step counter: the form, a question, or the result. The result
      screen is exactly the state that carries a result, and a question is
      on screen exactly while the step asks one. */
  lemma StepHasMeaning(app: App)
    requires app.Valid()
    ensures PhaseOf(app.step).Some?
    ensures PhaseOf(app.step) == Some(Finished) <==> app.finalResult.Some?
    ensures (PhaseOf(app.step) == Some(Asking(app.step))) <==> app.CurrentQuestion().Some?
  {
  }
}
