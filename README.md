# Team assessment survey: scoring, questionnaire and submission

This project models the core of a short web survey. A user enters a name,
an e-mail address and a phone number, then answers eight Yes/No questions.
Questions 1–4 are about leadership and questions 5–8 about team building.
The user receives one of three training recommendations. The client posts
the recommendation and the two scores to a serverless endpoint. The
endpoint stores one row and sends one e-mail.

Modules, one per source file:

- `Types` (`types.dfy`): the two question categories, the three
  recommendations and their strings, the user's details, questions, answer
  sets (a map from question id to Yes/No) and what the step counter means.
- `Constants` (`constants.dfy`): the eight-question table, with lemmas on
  its shape (ids 1..8 in order, four questions per category).
- `Helpers` (`helpers.dfy`): the scoring rule. `CountYes` is the
  per-category count of Yes answers over the table, and `Recommend` is the
  three-way choice applied to the two counts. `CalculateResult` is the
  source's loop with two counters, proved equal to `Recommend`. The lemmas
  relate the scores to the answer set.
- `Questionnaire` (`questionnaire.dfy`): the `App` component as a class
  with fields `step`, `user`, `answers`, `isSubmitting`, `submissionError`
  and `finalResult`. `Valid()` is the invariant every handler keeps. It
  says the answer set holds exactly the ids of the questions before the
  current step, and that the result screen always carries the
  recommendation for the answers collected.
- `Submit` (`submit.dfy`): the endpoint's handler. It is a method that
  takes the request, the outcomes of the database insert and of the e-mail
  send, the creation timestamp and the sender address. It returns the
  response and the list of collaborator calls it made, in order.

Collaborators are parameters. The network request of the client is a
`FetchOutcome` (no response, or a response with its `ok` flag). The
database insert is a `StoreOutcome` (success, an error object, or a thrown
error with a message). The e-mail send is a `MailOutcome` (success, or a
thrown error with a message). The `created_at` timestamp and the sender
address, which the source reads from the clock and from the environment,
are opaque string parameters.

Points where the code's behaviour is narrower or more exact than one might
expect:

- The two scores add up to exactly the number of question ids answered Yes,
  not merely at most that number (`Helpers.ScoresAddUpToYesCount`).
- The 405 and 400 responses carry only `message`. The `success` flag is
  present only on 200 and 500, so it is `None` in the first two.
- The endpoint requires `name`, `email` and `result`. It does not check
  `phone`, the scores, or whether `result` is one of the three strings.
- The category enum's strings are defined (`Types.CategoryLabel`), but no
  comparison uses them: categories are compared as enum members.

## Model

| member | source | states |
|---|---|---|
| `Types.CategoryLabelInjective` | types.ts:7-10 | the two category strings are distinct, so a category is exactly one of two values |
| `Types.ResultText` | types.ts:23-26 | each recommendation has a non-empty string |
| `Types.ResultTextInjective` | types.ts:23-26 | the three result strings are pairwise distinct |
| `Types.PhaseOf` | types.ts:20 | the step counter has a meaning exactly on 0..9; a question step carries its own number |
| `Types.ResultTextIsOneOfThree` | types.ts:23-26 | every result is one of "Leadership Training", "Team-Building Training", "Both Leadership and Team-Building Training" |
| `Constants.TableSize` | constants.ts:3-46 | the table has exactly eight questions |
| `Constants.IdsArePositions` | constants.ts:6-43 | the question at position i has id i+1, and ids are unique |
| `Constants.QuestionIdsAreOneToEight` | constants.ts:6-43 | the set of question ids is exactly 1..8 |
| `Constants.LeadershipQuestions` | constants.ts:5-24 | a question is a leadership question exactly when its id is at most 4 |
| `Constants.TeamBuildingQuestions` | constants.ts:26-45 | a question is a team-building question exactly when its id is at least 5 |
| `Constants.CategorySizes` | constants.ts:3-46 | each category holds exactly four questions |
| `Helpers.CalculateResult` | utils/helpers.ts:4-31 | the counter loop and if-chain return `Recommend(answers)`, the three-way choice on the two category counts |
| `Helpers.RecommendTieBreak` | utils/helpers.ts:23-30 | the three-way choice in both directions: strict majority wins, equal scores give both trainings |
| `Helpers.PrefixCountsAddUp` | utils/helpers.ts:8-16 | over the first k questions the two category counts add up to the number of ids 1..k answered Yes |
| `Helpers.ScoresAddUpToYesCount` | utils/helpers.ts:8-16 | leadershipScore + teamBuildingScore equals the number of question ids mapped to true |
| `Helpers.ScoresAddUpToTrueValues` | utils/helpers.ts:8-16 | for an answer set keyed only by question ids, the scores add up to the number of true values in the map |
| `Helpers.CountYesWithinCategory` | utils/helpers.ts:8-16 | a category's Yes count never exceeds the category's number of questions |
| `Helpers.ScoreBounds` | utils/helpers.ts:8-16 | each score is at most 4 |
| `Helpers.CountYesAgree` | utils/helpers.ts:8-9 | two answer sets that agree on Yes for each question give equal counts |
| `Helpers.RecommendDependsOnlyOnYes` | utils/helpers.ts:8-9 | scores and result depend only on which question ids are answered Yes |
| `Helpers.ForeignKeysIgnored` | utils/helpers.ts:8-9 | dropping map keys that are not question ids changes neither score nor the result |
| `Helpers.AbsentCountsAsNo` | utils/helpers.ts:8-9 | adding an explicit No for an unanswered id changes neither score nor the result |
| `Helpers.AllLeadershipYes` | utils/helpers.ts:8-30 | Yes to every leadership question and No to every team-building question gives scores (4, 0) and leadership training |
| `Helpers.AllTeamBuildingYes` | utils/helpers.ts:8-30 | the symmetric case gives scores (0, 4) and team-building training |
| `Helpers.AllNoGivesBoth` | utils/helpers.ts:8-30 | no Yes at all gives scores (0, 0) and both trainings |
| `Helpers.EmptyAnswersGiveBoth` | utils/helpers.ts:27-29 | the empty answer set gives both trainings |
| `Helpers.ScenarioLeadership` | utils/helpers.ts:8-30 | {1–4 Yes, 5–8 No} gives scores (4, 0) and "Leadership Training" |
| `Helpers.ScenarioTeamBuilding` | utils/helpers.ts:8-30 | {1, 5, 6 Yes, the rest No} gives scores (1, 2) and "Team-Building Training" |
| `Helpers.ScenarioAllNo` | utils/helpers.ts:8-30 | all eight No gives scores (0, 0) and both trainings |
| `Questionnaire.RecountScores` | App.tsx:52-58 | the client's recount equals the helper's two category counts, so the posted scores classify to the posted result |
| `Questionnaire.PayloadIsAccepted` | App.tsx:61-74 | a client request with a name and an e-mail passes the endpoint's method and field checks |
| `Questionnaire.App.constructor` | App.tsx:10-15 | the component starts on the details form with empty details and no answers, error or result |
| `Questionnaire.App.ChangeDetail` | App.tsx:19-21 | typing into a form field replaces that one detail and nothing else |
| `Questionnaire.App.HandleStart` | App.tsx:23-28 | step 0 moves to 1 exactly when name, e-mail and phone are all non-empty; nothing else changes |
| `Questionnaire.App.CurrentQuestion` | App.tsx:90 | a question is on screen exactly on steps 1..8, and it is `QUESTIONS[step-1]` with id `step` |
| `Questionnaire.App.HandleAnswer` | App.tsx:30-41 | at step s in 1..8 it records `answers[s] := answer`, leaves other entries alone, advances below 8 and submits at 8; outside 1..8 nothing changes |
| `Questionnaire.App.SubmitAssessment` | App.tsx:43-88 | sets the result, posts the recount scores, ends at step 9 either way, and sets the error exactly when the request fails or is not ok |
| `Questionnaire.StepHasMeaning` | types.ts:18-21 | in every state the handlers keep, the step is one of form, question or result; it is the result step exactly when a result is held, and a question step exactly when a question is on screen |
| `Questionnaire.FinishedAnswersCoverTable` | App.tsx:31-36 | on the result screen the answer set holds exactly the eight question ids |
| `Submit.ErrorMessage` | api/submit.ts:58-60 | the 500 message is the error's message, or "Internal Server Error" when that is empty |
| `Submit.ProcessBody` | api/submit.ts:20-61 | 400 for missing or empty name, e-mail or result, with no call. Otherwise one insert of the mapped row. A failed insert gives 500 and no mail. After a stored row comes exactly one mail to the submitted address with subject "You need " + result; its failure gives 500. 200 exactly when both succeed |
| `Submit.Handler` | api/submit.ts:13-62 | 405 for a non-POST with no call, checked before anything else; a POST without a body object escapes unanswered with no call; otherwise the body is processed as above. Only an accepted request reaches a collaborator |
| `Submit.HandlerIntended` | api/submit.ts:13-24 | as `Submit.Handler`, but a POST without a body object gets 400 with no call, so every request gets a reply |
| `Submit.MailTextEndsWithResult` | api/submit.ts:47-51 | the mail's text ends with the result |

## Findings

| source | as written | input that shows it | evidently intended | confidence | as-written member | corrected member |
|---|---|---|---|---|---|---|
| api/submit.ts:18-24 | the body is destructured before the `try`, so reading fields from a null or undefined body throws outside the error handling and the handler sends no reply | a POST request with no body: `Request("POST", None)` gives `Uncaught` and no call | every failure is caught and answered with a structured response; a missing body is answered like missing fields, with 400 | medium, not executed | `Submit.Handler` | `Submit.HandlerIntended` |

## Left out

- The HTML body of the e-mail is not modelled: it is markup around the same result string as the text body.
- Logging through `console.error` is not modelled: it has no effect on behaviour.
- JSX rendering, animation, styling, the progress bar and the page reload in `App.tsx` are not modelled: they are presentation. The progress bar also uses floating-point division.
- `components/Input.tsx` is not part of this model: it is a presentational input widget.
- The clients of the database and of the mail provider, and the environment variables that configure them, are not modelled: they are foreign libraries, given as abstract outcomes.
- The `fetch` call and JSON serialisation are not modelled as network I/O. The request is an abstract `FetchOutcome`, and the body that would be serialised is the `Payload`.
- JavaScript truthiness is modelled only as "absent or empty string". Request fields of other JSON types are not modelled.
- The async interleaving of React state updates is not modelled: each handler is one atomic transition. So `isSubmitting` is true only inside `SubmitAssessment`.
- Questionnaire.App.HandleStart: requires step 0. In the source it has no step check, but it is only reachable from the form, which is rendered only at step 0.
- Questionnaire.App.ChangeDetail: requires step 0, for the same reason.
- Submit.Handler: a body that is present but is not a JSON object (a string, or unparsable text) is not modelled separately. A body object is either present, with each field present or absent, or missing.
- The handler called twice stores two rows and sends two mails. The model covers one call; repeated calls are independent runs of `Submit.Handler`.
