/** The submission endpoint. It checks the method, reads the body, checks
    the required fields, inserts one row into the `assessments` table, then
    sends one e-mail. It maps every failure of the two calls to status 500,
    without rolling back the row. The database and the mail provider are
    abstract outcomes given as parameters, and the handler returns the calls
    it made, in order. */
module Submit {
  import opened Types

  /** The JSON body as received. A field that is absent is None. */
  datatype RequestBody = RequestBody(
    name: Option<string>,
    email: Option<string>,
    phone: Option<string>,
    result: Option<string>,
    leadershipScore: Option<int>,
    teamBuildingScore: Option<int>)

  /** The request. `body` is None when there is no body object to read
      fields from (a null or undefined body). */
  datatype Request = Request(httpMethod: string, body: Option<RequestBody>)

  /** A body with no fields at all. */
  const EmptyBody := RequestBody(None, None, None, None, None, None)

  /** One row of the `assessments` table. */
  datatype Row = Row(
    name: string,
    email: string,
    phone: Option<string>,
    resultType: string,
    leadershipScore: Option<int>,
    teamBuildingScore: Option<int>,
    createdAt: string)

  datatype Mail = Mail(to: string, from: string, subject: string, text: string)

  /** A call the handler made to one of its two collaborators. */
  datatype Call = Insert(table: string, row: Row) | Send(mail: Mail)

  /** What the insert does: it succeeds, it reports an error object, or it
      throws with a message. */
  datatype StoreOutcome = StoreOk | StoreRejected | StoreThrew(message: string)

  /** What the send does: it succeeds or throws with a message. */
  datatype MailOutcome = MailOk | MailThrew(message: string)

  /** Either the handler replies with a status code and a JSON body
      (`success` is absent from the 405 and 400 bodies), or an error escapes
      the handler and it sends no reply of its own. */
  datatype Response = Reply(status: int, success: Option<bool>, message: string) | Uncaught

  const AssessmentsTable := "assessments"
  const ContactText := "Please contact 755-25-25 for more information.\n\nAssessment Result: "

  /** A string field is present and not empty. */
  predicate Filled(field: Option<string>)
  {
    field.Some? && field.value != ""
  }

  /** What the handler demands of a body: name, email and result. */
  predicate HasRequiredFields(body: RequestBody)
  {
    Filled(body.name) && Filled(body.email) && Filled(body.result)
  }

  /** A POST whose body has the required fields reaches the database. */
  predicate Accepted(req: Request)
  {
    req.httpMethod == "POST" && req.body.Some? && HasRequiredFields(req.body.value)
  }

  /** The catch block's message: the error's own message, or a fixed text
      when it is empty. */
  function ErrorMessage(message: string): (m: string)
    ensures m != ""
    ensures message != "" ==> m == message
    ensures message == "" ==> m == "Internal Server Error"
  {
    if message != "" then message else "Internal Server Error"
  }

  /** The row copies name, email and phone, and maps result to result_type
      and the two scores to their columns. */
  predicate RowFor(row: Row, body: RequestBody, now: string)
    requires HasRequiredFields(body)
  {
    && row.name == body.name.value
    && row.email == body.email.value
    && row.phone == body.phone
    && row.resultType == body.result.value
    && row.leadershipScore == body.leadershipScore
    && row.teamBuildingScore == body.teamBuildingScore
    && row.createdAt == now
  }

  /** The mail goes to the submitted address. Its subject names the result
      and its text ends with the result. */
  predicate MailFor(mail: Mail, body: RequestBody, sender: string)
    requires HasRequiredFields(body)
  {
    && mail.to == body.email.value
    && mail.from == sender
    && mail.subject == "You need " + body.result.value
    && mail.text == ContactText + body.result.value
  }

  /** Every send is preceded by an insert. */
  predicate SendFollowsInsert(calls: seq<Call>)
  {
    forall i :: 0 <= i < |calls| && calls[i].Send? ==> exists j :: 0 <= j < i && calls[j].Insert?
  }

  /** What happens once a body has been read: the field check, then the
      insert of the mapped row, then the mail, with every failure of the two
      calls answered by 500. */
  ghost predicate ProcessedBody(body: RequestBody, store: StoreOutcome, mail: MailOutcome,
                                now: string, sender: string, res: Response, calls: seq<Call>)
  {
    // Missing or empty name, email or result: 400 and no call.
    && (!HasRequiredFields(body) ==> res == Reply(400, None, "Missing required fields") && calls == [])
    // Otherwise the first call is the insert of the mapped row.
    && (HasRequiredFields(body) ==>
          && calls != [] && calls[0].Insert? && calls[0].table == AssessmentsTable
          && RowFor(calls[0].row, body, now))
    // A failed insert ends the request: 500 and no mail.
    && (HasRequiredFields(body) && !store.StoreOk? ==>
          |calls| == 1 && res.Reply? && res.status == 500 && res.success == Some(false))
    && (HasRequiredFields(body) && store == StoreRejected ==> res.message == "Database insertion failed")
    && (HasRequiredFields(body) && store.StoreThrew? ==> res.message == ErrorMessage(store.message))
    // A stored row is followed by exactly one mail.
    && (HasRequiredFields(body) && store.StoreOk? ==>
          |calls| == 2 && calls[1].Send? && MailFor(calls[1].mail, body, sender))
    && (HasRequiredFields(body) && store.StoreOk? && mail.MailThrew? ==>
          res == Reply(500, Some(false), ErrorMessage(mail.message)))
    && res.Reply?
    && (res.status == 200 <==> HasRequiredFields(body) && store.StoreOk? && mail.MailOk?)
    && (res.status == 200 ==> res == Reply(200, Some(true), "Assessment submitted successfully"))
    && res.status in {200, 400, 500}
    && SendFollowsInsert(calls)
    && (forall i :: 0 <= i < |calls| && calls[i].Send? ==> i == 1 && HasRequiredFields(body) && store.StoreOk?)
  }

  /** The part of the handler after the body has been read. */
  method ProcessBody(body: RequestBody, store: StoreOutcome, mail: MailOutcome, now: string, sender: string)
    returns (res: Response, calls: seq<Call>)
    ensures ProcessedBody(body, store, mail, now, sender, res, calls)
  {
    calls := [];
    if !Filled(body.name) || !Filled(body.email) || !Filled(body.result) {
      return Reply(400, None, "Missing required fields"), calls;
    }
    var row := Row(body.name.value, body.email.value, body.phone, body.result.value,
                   body.leadershipScore, body.teamBuildingScore, now);
    calls := calls + [Insert(AssessmentsTable, row)];
    match store {
      case StoreRejected =>
        return Reply(500, Some(false), ErrorMessage("Database insertion failed")), calls;
      case StoreThrew(m) =>
        return Reply(500, Some(false), ErrorMessage(m)), calls;
      case StoreOk =>
    }
    var msg := Mail(body.email.value, sender, "You need " + body.result.value, ContactText + body.result.value);
    calls := calls + [Send(msg)];
    match mail {
      case MailThrew(m) =>
        return Reply(500, Some(false), ErrorMessage(m)), calls;
      case MailOk =>
    }
    res := Reply(200, Some(true), "Assessment submitted successfully");
  }

  /** The handler as written. `store` and `mail` are what the two
      collaborators do if they are called, `now` is the creation timestamp
      and `sender` the configured from-address. The body is read before the
      try block, so a POST without a body object escapes the handler
      unanswered. */
  method Handler(req: Request, store: StoreOutcome, mail: MailOutcome, now: string, sender: string)
    returns (res: Response, calls: seq<Call>)
    // Method check first: any non-POST is refused, whatever its body.
    ensures req.httpMethod != "POST" ==> res == Reply(405, None, "Method Not Allowed") && calls == []
    // A POST without a body object: the read throws, nothing answers.
    ensures req.httpMethod == "POST" && req.body.None? ==> res == Uncaught && calls == []
    ensures req.httpMethod == "POST" && req.body.Some? ==>
      ProcessedBody(req.body.value, store, mail, now, sender, res, calls)
    // Only a POST with the required fields reaches a collaborator.
    ensures calls != [] <==> Accepted(req)
    ensures res.Reply? && res.status == 200 <==> Accepted(req) && store.StoreOk? && mail.MailOk?
  {
    if req.httpMethod != "POST" {
      return Reply(405, None, "Method Not Allowed"), [];
    }
    match req.body {
      case None =>
        return Uncaught, [];
      case Some(body) =>
        res, calls := ProcessBody(body, store, mail, now, sender);
    }
  }

  /** The handler with the body read inside the error handling, as the rest
      of the handler intends: a POST without a body object is answered like
      one whose fields are all missing. */
  method HandlerIntended(req: Request, store: StoreOutcome, mail: MailOutcome, now: string, sender: string)
    returns (res: Response, calls: seq<Call>)
    ensures req.httpMethod != "POST" ==> res == Reply(405, None, "Method Not Allowed") && calls == []
    ensures req.httpMethod == "POST" && req.body.None? ==>
      res == Reply(400, None, "Missing required fields") && calls == []
    ensures req.httpMethod == "POST" && req.body.Some? ==>
      ProcessedBody(req.body.value, store, mail, now, sender, res, calls)
    // Every request gets a reply.
    ensures res.Reply? && res.status in {200, 400, 405, 500}
    ensures calls != [] <==> Accepted(req)
  {
    if req.httpMethod != "POST" {
      return Reply(405, None, "Method Not Allowed"), [];
    }
    var body := if req.body.Some? then req.body.value else EmptyBody;
    res, calls := ProcessBody(body, store, mail, now, sender);
  }

  /** The mail's text holds the result. */
  lemma MailTextEndsWithResult(mail: Mail, body: RequestBody, sender: string)
    requires HasRequiredFields(body) && MailFor(mail, body, sender)
    ensures |mail.text| >= |body.result.value|
    ensures mail.text[|mail.text| - |body.result.value|..] == body.result.value
  {
  }
}
