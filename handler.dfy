/**
 * The ten HTTP handlers. Each runs a fixed sequence of checks; the first that fails picks
 * a 400 response, and only when all pass does the handler call the service, once, mapping
 * any error it returns to 500. Every path writes one envelope and records its status and the
 * errors met on the request for the logging middleware.
 */
module Handler {
  import opened Wrappers
  import opened Errors
  import opened Domain
  import opened Requests
  import opened Parsing
  import opened Http
  import opened Middleware
  import opened Envelope

  const InvalidRequestBody: string := "Invalid request body"
  const NameMustNotBeEmpty: string := "field \"name\" must not be empty"
  const TextMustNotBeEmpty: string := "field \"text\" must not be empty"
  const InvalidUuidForId: string := "invalid UUID format for \"id\""
  const InvalidUuidForUserId: string := "invalid UUID format for \"user_id\""
  const InvalidIdFormat: string := "invalid ID format for \"id\""
  const IdMustBePositive: string := "ID must be a positive integer"
  const InternalServerErrorDesc: string := "internal server error"

  /** The service the handlers call (QNADispatcher): one function per operation. */
  datatype Dispatcher = Dispatcher(
    createUser: string -> Result<string, Error>,
    getUsers: () -> Result<seq<User>, Error>,
    deleteUser: string -> Result<(), Error>,
    getQuestions: () -> Result<seq<Question>, Error>,
    createQuestion: string -> Result<int, Error>,
    getQuestionAndAnswers: int -> Result<(Question, seq<Answer>), Error>,
    deleteQuestionAndAnswers: int -> Result<(), Error>,
    createAnswerToQuestion: Answer -> Result<int, Error>,
    getAnswer: int -> Result<Answer, Error>,
    deleteAnswer: int -> Result<(), Error>)

  /** A call a handler made to the service, with the arguments it passed. */
  datatype Call =
    | CreateUserCall(userName: string)
    | GetUsersCall
    | DeleteUserCall(userId: string)
    | GetQuestionsCall
    | CreateQuestionCall(question: string)
    | GetQuestionAndAnswersCall(questionId: int)
    | DeleteQuestionAndAnswersCall(questionId: int)
    | CreateAnswerToQuestionCall(answer: Answer)
    | GetAnswerCall(answerId: int)
    | DeleteAnswerCall(answerId: int)

  /** Why a request is turned away with 400: the code and description sent, and the error logged. */
  datatype Rejection = Rejection(code: string, desc: string, reason: Error)

  /** The rejection of a body the decoder refused. */
  function Malformed(e: Error): Rejection
  {
    Rejection(JsonParsingFailed, InvalidRequestBody, e)
  }

  /** The rejection a handler raises itself with errors.New(desc). */
  function Refused(desc: string): Rejection
  {
    Rejection(ValidationFailed, desc, Root(Invalid(desc)))
  }

  /** CreateUser's checks: the body decodes, then its name is not empty. */
  function CheckCreateUser(body: Result<CreateUserRequest, Error>): (c: Result<string, Rejection>)
    ensures body.Err? ==> c == Err(Malformed(body.error))
    ensures body.Ok? && body.value.name == "" ==> c == Err(Refused(NameMustNotBeEmpty))
    ensures c.Ok? <==> body.Ok? && body.value.name != ""
    ensures c.Ok? ==> c.value == body.value.name
    ensures c.Err? ==> IsErrorCode(c.error.code) && c.error.code != InternalServerError
  {
    match body
    case Err(e) => Err(Malformed(e))
    case Ok(req) => if |req.name| == 0 then Err(Refused(NameMustNotBeEmpty)) else Ok(req.name)
  }

  /** CreateQuestion's checks: the body decodes, then its text is not empty. */
  function CheckCreateQuestion(body: Result<CreateQuestionRequest, Error>): (c: Result<string, Rejection>)
    ensures body.Err? ==> c == Err(Malformed(body.error))
    ensures body.Ok? && body.value.text == "" ==> c == Err(Refused(TextMustNotBeEmpty))
    ensures c.Ok? <==> body.Ok? && body.value.text != ""
    ensures c.Ok? ==> c.value == body.value.text
    ensures c.Err? ==> IsErrorCode(c.error.code) && c.error.code != InternalServerError
  {
    match body
    case Err(e) => Err(Malformed(e))
    case Ok(req) => if |req.text| == 0 then Err(Refused(TextMustNotBeEmpty)) else Ok(req.text)
  }

  /** DeleteUser's check: the {id} path value is a UUID; it is passed on as written. */
  function CheckUserPath(path: string): (c: Result<string, Rejection>)
    ensures c.Ok? <==> IsUuid(path)
    ensures c.Ok? ==> c.value == path
    ensures c.Err? ==> c.error == Rejection(ValidationFailed, InvalidUuidForId, Root(BadUuid(path)))
    ensures c.Err? ==> IsErrorCode(c.error.code) && c.error.code != InternalServerError
  {
    if IsUuid(path) then Ok(path) else Err(Rejection(ValidationFailed, InvalidUuidForId, Root(BadUuid(path))))
  }

  /**
   * The check of an integer {id} path value: it must parse (else "invalid ID format") and be
   * at least 1 (else "ID must be a positive integer"). It passes exactly the decimal texts of
   * the positive ints.
   */
  function CheckId(path: string): (c: Result<int, Rejection>)
    ensures c.Ok? <==> exists n :: 1 <= n <= MaxInt && Denotes(path, n)
    ensures c.Ok? ==> 1 <= c.value <= MaxInt && Denotes(path, c.value)
    ensures Atoi(path).Err? ==> c == Err(Rejection(ValidationFailed, InvalidIdFormat, Atoi(path).error))
    ensures Atoi(path).Ok? && Atoi(path).value < 1 ==> c == Err(Refused(IdMustBePositive))
    ensures c.Err? ==> IsErrorCode(c.error.code) && c.error.code != InternalServerError
  {
    match Atoi(path)
    case Err(e) => Err(Rejection(ValidationFailed, InvalidIdFormat, e))
    case Ok(n) => if n < 1 then Err(Refused(IdMustBePositive)) else Ok(n)
  }

  /**
   * CreateAnswerToQuestion's checks, in order: the body decodes, the path id parses and is
   * positive, the text is not empty, the user id is a UUID. The first to fail decides; when
   * all pass, the answer to create has the path's question id, the body's user id and text,
   * and id 0.
   */
  function CheckCreateAnswer(body: Result<CreateAnswerToQuestionRequest, Error>, path: string)
    : (c: Result<Answer, Rejection>)
    ensures body.Err? ==> c == Err(Malformed(body.error))
    ensures body.Ok? && CheckId(path).Err? ==> c == Err(CheckId(path).error)
    ensures body.Ok? && CheckId(path).Ok? && body.value.text == "" ==> c == Err(Refused(TextMustNotBeEmpty))
    ensures body.Ok? && CheckId(path).Ok? && body.value.text != "" && !IsUuid(body.value.userId) ==>
      c == Err(Rejection(ValidationFailed, InvalidUuidForUserId, Root(BadUuid(body.value.userId))))
    ensures c.Ok? <==> body.Ok? && CheckId(path).Ok? && body.value.text != "" && IsUuid(body.value.userId)
    ensures c.Ok? ==> c.value == Answer(0, CheckId(path).value, body.value.userId, body.value.text)
    ensures c.Err? ==> IsErrorCode(c.error.code) && c.error.code != InternalServerError
  {
    match body
    case Err(e) => Err(Malformed(e))
    case Ok(req) =>
      match CheckId(path)
      case Err(rej) => Err(rej)
      case Ok(questionId) =>
        if |req.text| == 0 then Err(Refused(TextMustNotBeEmpty))
        else if !IsUuid(req.userId) then
          Err(Rejection(ValidationFailed, InvalidUuidForUserId, Root(BadUuid(req.userId))))
        else Ok(Answer(0, questionId, req.userId, req.text))
  }

  /** The envelope of a rejected request. */
  function Refusal(rej: Rejection): Response
  {
    Response(StatusText(400), Some(ErrorBody(rej.code, rej.desc)), None)
  }

  /** The envelope sent for any error from the service. */
  function InternalFailure(): Response
  {
    Response(StatusText(500), Some(ErrorBody(InternalServerError, InternalServerErrorDesc)), None)
  }

  /** The envelope of a success, with or without data. */
  function Success(data: Option<Payload>): Response
  {
    Response(StatusText(200), None, data)
  }

  /**
   * The state a handler leaves when it answered with status and envelope resp after meeting
   * the errors in errorList: the status is written, the envelope is the whole body (unless
   * the connection failed), and the request records the same status with errorList followed
   * by any write failure.
   */
  ghost predicate Answered(w: ResponseWriter<Response>, r: Request, status: int, resp: Response,
                           errorList: seq<Error>)
    reads w, r
  {
    && w.wroteHeader && w.status == status
    && w.body == (if w.fault.None? then [resp] else [])
    && r.ctxStatus == Some(status)
    && r.ctxErrors == Some(errorList + EncodeErrors(w.fault))
  }

  /** What the logging middleware relies on: the recorded status is the one written, and every failure logs an error. */
  ghost predicate Logged(w: ResponseWriter<Response>, r: Request)
    reads w, r
  {
    && r.ctxStatus == Some(w.status)
    && r.ctxErrors.Some?
    && (w.status != 200 ==> |r.ctxErrors.value| > 0)
  }

  /** Every envelope written carries, if any error, one of the three error codes. */
  ghost predicate OnlyKnownCodes(w: ResponseWriter<Response>)
    reads w
  {
    forall i :: 0 <= i < |w.body| && w.body[i].error.Some? ==> IsErrorCode(w.body[i].error.value.code)
  }

  /** The tail of every branch: ReturnResponse, note its error if any, then UpdateContext. */
  method Respond(w: ResponseWriter<Response>, r: Request, status: int, opts: seq<ResponseOption>,
                 errorList: seq<Error>)
    requires w.Unwritten()
    modifies w, r
    ensures Answered(w, r, status, Response(StatusText(status), LastError(opts), LastData(opts)), errorList)
    ensures |opts| == 0 ==> Answered(w, r, status, Response(StatusText(status), None, None), errorList)
    ensures |opts| == 1 && opts[0].WithError? ==>
      Answered(w, r, status, Response(StatusText(status), Some(ErrorBody(opts[0].code, opts[0].desc)), None), errorList)
    ensures |opts| == 1 && opts[0].WithData? ==>
      Answered(w, r, status, Response(StatusText(status), None, Some(opts[0].data)), errorList)
    ensures w.sentHeader == old(w.header)
    ensures w.header == old(w.header)["Content-Type" := "application/json"]
  {
    var errs := errorList;
    var err := ReturnResponse(w, status, opts);
    var resp := Response(StatusText(status), LastError(opts), LastData(opts));
    assert w.body == (if w.fault.None? then [resp] else []);
    if err.Some? {
      errs := errs + [err.value];
    }
    assert errs == errorList + EncodeErrors(w.fault);
    UpdateContext(r, status, errs);
    assert w.body == (if w.fault.None? then [resp] else []);
    if |opts| == 1 {
      SingleOption(opts[0]);
      assert opts == [opts[0]];
    }
  }

  /**
   * The service as the handlers hold it (the QNADispatcher they are given): every call goes
   * through one of these methods, which answers what impl answers and appends the call to log.
   */
  class Service {
    const impl: Dispatcher
    ghost var log: seq<Call>

    constructor (impl: Dispatcher)
      ensures this.impl == impl && log == []
    {
      this.impl := impl;
      log := [];
    }

    method CreateUser(userName: string) returns (r: Result<string, Error>)
      modifies this
      ensures log == old(log) + [CreateUserCall(userName)]
      ensures r == impl.createUser(userName)
    {
      log := log + [CreateUserCall(userName)];
      r := impl.createUser(userName);
    }

    method GetUsers() returns (r: Result<seq<User>, Error>)
      modifies this
      ensures log == old(log) + [GetUsersCall]
      ensures r == impl.getUsers()
    {
      log := log + [GetUsersCall];
      r := impl.getUsers();
    }

    method DeleteUser(userId: string) returns (r: Result<(), Error>)
      modifies this
      ensures log == old(log) + [DeleteUserCall(userId)]
      ensures r == impl.deleteUser(userId)
    {
      log := log + [DeleteUserCall(userId)];
      r := impl.deleteUser(userId);
    }

    method GetQuestions() returns (r: Result<seq<Question>, Error>)
      modifies this
      ensures log == old(log) + [GetQuestionsCall]
      ensures r == impl.getQuestions()
    {
      log := log + [GetQuestionsCall];
      r := impl.getQuestions();
    }

    method CreateQuestion(question: string) returns (r: Result<int, Error>)
      modifies this
      ensures log == old(log) + [CreateQuestionCall(question)]
      ensures r == impl.createQuestion(question)
    {
      log := log + [CreateQuestionCall(question)];
      r := impl.createQuestion(question);
    }

    method GetQuestionAndAnswers(questionId: int) returns (r: Result<(Question, seq<Answer>), Error>)
      modifies this
      ensures log == old(log) + [GetQuestionAndAnswersCall(questionId)]
      ensures r == impl.getQuestionAndAnswers(questionId)
    {
      log := log + [GetQuestionAndAnswersCall(questionId)];
      r := impl.getQuestionAndAnswers(questionId);
    }

    method DeleteQuestionAndAnswers(questionId: int) returns (r: Result<(), Error>)
      modifies this
      ensures log == old(log) + [DeleteQuestionAndAnswersCall(questionId)]
      ensures r == impl.deleteQuestionAndAnswers(questionId)
    {
      log := log + [DeleteQuestionAndAnswersCall(questionId)];
      r := impl.deleteQuestionAndAnswers(questionId);
    }

    method CreateAnswerToQuestion(answer: Answer) returns (r: Result<int, Error>)
      modifies this
      ensures log == old(log) + [CreateAnswerToQuestionCall(answer)]
      ensures r == impl.createAnswerToQuestion(answer)
    {
      log := log + [CreateAnswerToQuestionCall(answer)];
      r := impl.createAnswerToQuestion(answer);
    }

    method GetAnswer(answerId: int) returns (r: Result<Answer, Error>)
      modifies this
      ensures log == old(log) + [GetAnswerCall(answerId)]
      ensures r == impl.getAnswer(answerId)
    {
      log := log + [GetAnswerCall(answerId)];
      r := impl.getAnswer(answerId);
    }

    method DeleteAnswer(answerId: int) returns (r: Result<(), Error>)
      modifies this
      ensures log == old(log) + [DeleteAnswerCall(answerId)]
      ensures r == impl.deleteAnswer(answerId)
    {
      log := log + [DeleteAnswerCall(answerId)];
      r := impl.deleteAnswer(answerId);
    }
  }

  /** The handlers, sharing the service they call (serverAPI). */
  class ServerApi {
    const service: Service

    constructor (service: Service)
      ensures this.service == service
    {
      this.service := service;
    }

    /** POST /users/ */
    method CreateUser(w: ResponseWriter<Response>, r: Request, body: Result<CreateUserRequest, Error>)
      requires w.Unwritten()
      modifies w, r, service
      ensures Logged(w, r) && OnlyKnownCodes(w)
      ensures w.sentHeader == old(w.header) && w.header == old(w.header)["Content-Type" := "application/json"]
      ensures match CheckCreateUser(body)
        case Err(rej) => service.log == old(service.log) && Answered(w, r, 400, Refusal(rej), [rej.reason])
        case Ok(name) =>
          && service.log == old(service.log) + [CreateUserCall(name)]
          && match service.impl.createUser(name)
             case Err(e) => Answered(w, r, 500, InternalFailure(), [e])
             case Ok(userId) => Answered(w, r, 200, Success(Some(UserCreated(userId))), [])
    {
      if body.Err? {
        Respond(w, r, 400, [WithError(JsonParsingFailed, InvalidRequestBody)], [body.error]);
        return;
      }
      var req := body.value;
      if |req.name| == 0 {
        Respond(w, r, 400, [WithError(ValidationFailed, NameMustNotBeEmpty)], [Root(Invalid(NameMustNotBeEmpty))]);
        return;
      }
      var reply := service.CreateUser(req.name);
      if reply.Err? {
        Respond(w, r, 500, [WithError(InternalServerError, InternalServerErrorDesc)], [reply.error]);
        return;
      }
      Respond(w, r, 200, [WithData(UserCreated(reply.value))], []);
    }

    /** GET /users/ */
    method GetUsers(w: ResponseWriter<Response>, r: Request)
      requires w.Unwritten()
      modifies w, r, service
      ensures Logged(w, r) && OnlyKnownCodes(w)
      ensures w.sentHeader == old(w.header) && w.header == old(w.header)["Content-Type" := "application/json"]
      ensures service.log == old(service.log) + [GetUsersCall]
      ensures match service.impl.getUsers()
        case Err(e) => Answered(w, r, 500, InternalFailure(), [e])
        case Ok(users) => Answered(w, r, 200, Success(Some(Users(users))), [])
    {
      var reply := service.GetUsers();
      if reply.Err? {
        Respond(w, r, 500, [WithError(InternalServerError, InternalServerErrorDesc)], [reply.error]);
        return;
      }
      Respond(w, r, 200, [WithData(Users(reply.value))], []);
    }

    /** DELETE /users/{id} */
    method DeleteUser(w: ResponseWriter<Response>, r: Request)
      requires w.Unwritten()
      modifies w, r, service
      ensures Logged(w, r) && OnlyKnownCodes(w)
      ensures w.sentHeader == old(w.header) && w.header == old(w.header)["Content-Type" := "application/json"]
      ensures match CheckUserPath(r.pathId)
        case Err(rej) => service.log == old(service.log) && Answered(w, r, 400, Refusal(rej), [rej.reason])
        case Ok(userId) =>
          && service.log == old(service.log) + [DeleteUserCall(userId)]
          && match service.impl.deleteUser(userId)
             case Err(e) => Answered(w, r, 500, InternalFailure(), [e])
             case Ok(_) => Answered(w, r, 200, Success(None), [])
    {
      var userId := r.pathId;
      if !IsUuid(userId) {
        Respond(w, r, 400, [WithError(ValidationFailed, InvalidUuidForId)], [Root(BadUuid(userId))]);
        return;
      }
      var reply := service.DeleteUser(userId);
      if reply.Err? {
        Respond(w, r, 500, [WithError(InternalServerError, InternalServerErrorDesc)], [reply.error]);
        return;
      }
      Respond(w, r, 200, [], []);
    }

    /** GET /questions/ */
    method GetQuestions(w: ResponseWriter<Response>, r: Request)
      requires w.Unwritten()
      modifies w, r, service
      ensures Logged(w, r) && OnlyKnownCodes(w)
      ensures w.sentHeader == old(w.header) && w.header == old(w.header)["Content-Type" := "application/json"]
      ensures service.log == old(service.log) + [GetQuestionsCall]
      ensures match service.impl.getQuestions()
        case Err(e) => Answered(w, r, 500, InternalFailure(), [e])
        case Ok(questions) => Answered(w, r, 200, Success(Some(Questions(questions))), [])
    {
      var reply := service.GetQuestions();
      if reply.Err? {
        Respond(w, r, 500, [WithError(InternalServerError, InternalServerErrorDesc)], [reply.error]);
        return;
      }
      Respond(w, r, 200, [WithData(Questions(reply.value))], []);
    }

    /** POST /questions/ */
    method CreateQuestion(w: ResponseWriter<Response>, r: Request, body: Result<CreateQuestionRequest, Error>)
      requires w.Unwritten()
      modifies w, r, service
      ensures Logged(w, r) && OnlyKnownCodes(w)
      ensures w.sentHeader == old(w.header) && w.header == old(w.header)["Content-Type" := "application/json"]
      ensures match CheckCreateQuestion(body)
        case Err(rej) => service.log == old(service.log) && Answered(w, r, 400, Refusal(rej), [rej.reason])
        case Ok(text) =>
          && service.log == old(service.log) + [CreateQuestionCall(text)]
          && match service.impl.createQuestion(text)
             case Err(e) => Answered(w, r, 500, InternalFailure(), [e])
             case Ok(questionId) => Answered(w, r, 200, Success(Some(QuestionCreated(questionId))), [])
    {
      if body.Err? {
        Respond(w, r, 400, [WithError(JsonParsingFailed, InvalidRequestBody)], [body.error]);
        return;
      }
      var req := body.value;
      if |req.text| == 0 {
        Respond(w, r, 400, [WithError(ValidationFailed, TextMustNotBeEmpty)], [Root(Invalid(TextMustNotBeEmpty))]);
        return;
      }
      var reply := service.CreateQuestion(req.text);
      if reply.Err? {
        Respond(w, r, 500, [WithError(InternalServerError, InternalServerErrorDesc)], [reply.error]);
        return;
      }
      Respond(w, r, 200, [WithData(QuestionCreated(reply.value))], []);
    }

    /** GET /questions/{id} */
    method GetQuestionAndAnswers(w: ResponseWriter<Response>, r: Request)
      requires w.Unwritten()
      modifies w, r, service
      ensures Logged(w, r) && OnlyKnownCodes(w)
      ensures w.sentHeader == old(w.header) && w.header == old(w.header)["Content-Type" := "application/json"]
      ensures match CheckId(r.pathId)
        case Err(rej) => service.log == old(service.log) && Answered(w, r, 400, Refusal(rej), [rej.reason])
        case Ok(questionId) =>
          && service.log == old(service.log) + [GetQuestionAndAnswersCall(questionId)]
          && match service.impl.getQuestionAndAnswers(questionId)
             case Err(e) => Answered(w, r, 500, InternalFailure(), [e])
             case Ok((question, answers)) =>
               Answered(w, r, 200, Success(Some(QuestionAndAnswers(question, answers))), [])
    {
      var parsed := Atoi(r.pathId);
      if parsed.Err? {
        Respond(w, r, 400, [WithError(ValidationFailed, InvalidIdFormat)], [parsed.error]);
        return;
      }
      var questionId := parsed.value;
      if questionId < 1 {
        Respond(w, r, 400, [WithError(ValidationFailed, IdMustBePositive)], [Root(Invalid(IdMustBePositive))]);
        return;
      }
      var reply := service.GetQuestionAndAnswers(questionId);
      if reply.Err? {
        Respond(w, r, 500, [WithError(InternalServerError, InternalServerErrorDesc)], [reply.error]);
        return;
      }
      var (question, answers) := reply.value;
      Respond(w, r, 200, [WithData(QuestionAndAnswers(question, answers))], []);
    }

    /** DELETE /questions/{id} */
    method DeleteQuestionAndAnswers(w: ResponseWriter<Response>, r: Request)
      requires w.Unwritten()
      modifies w, r, service
      ensures Logged(w, r) && OnlyKnownCodes(w)
      ensures w.sentHeader == old(w.header) && w.header == old(w.header)["Content-Type" := "application/json"]
      ensures match CheckId(r.pathId)
        case Err(rej) => service.log == old(service.log) && Answered(w, r, 400, Refusal(rej), [rej.reason])
        case Ok(questionId) =>
          && service.log == old(service.log) + [DeleteQuestionAndAnswersCall(questionId)]
          && match service.impl.deleteQuestionAndAnswers(questionId)
             case Err(e) => Answered(w, r, 500, InternalFailure(), [e])
             case Ok(_) => Answered(w, r, 200, Success(None), [])
    {
      var parsed := Atoi(r.pathId);
      if parsed.Err? {
        Respond(w, r, 400, [WithError(ValidationFailed, InvalidIdFormat)], [parsed.error]);
        return;
      }
      var questionId := parsed.value;
      if questionId < 1 {
        Respond(w, r, 400, [WithError(ValidationFailed, IdMustBePositive)], [Root(Invalid(IdMustBePositive))]);
        return;
      }
      var reply := service.DeleteQuestionAndAnswers(questionId);
      if reply.Err? {
        Respond(w, r, 500, [WithError(InternalServerError, InternalServerErrorDesc)], [reply.error]);
        return;
      }
      Respond(w, r, 200, [], []);
    }

    /** POST /questions/{id}/answers/ */
    method CreateAnswerToQuestion(w: ResponseWriter<Response>, r: Request,
                                  body: Result<CreateAnswerToQuestionRequest, Error>)
      requires w.Unwritten()
      modifies w, r, service
      ensures Logged(w, r) && OnlyKnownCodes(w)
      ensures w.sentHeader == old(w.header) && w.header == old(w.header)["Content-Type" := "application/json"]
      ensures match CheckCreateAnswer(body, r.pathId)
        case Err(rej) => service.log == old(service.log) && Answered(w, r, 400, Refusal(rej), [rej.reason])
        case Ok(answer) =>
          && service.log == old(service.log) + [CreateAnswerToQuestionCall(answer)]
          && match service.impl.createAnswerToQuestion(answer)
             case Err(e) => Answered(w, r, 500, InternalFailure(), [e])
             case Ok(answerId) => Answered(w, r, 200, Success(Some(AnswerCreated(answerId))), [])
    {
      var questionId := r.pathId;
      if body.Err? {
        Respond(w, r, 400, [WithError(JsonParsingFailed, InvalidRequestBody)], [body.error]);
        return;
      }
      var req := body.value;
      var parsed := Atoi(questionId);
      if parsed.Err? {
        Respond(w, r, 400, [WithError(ValidationFailed, InvalidIdFormat)], [parsed.error]);
        return;
      }
      var questionIdInt := parsed.value;
      if questionIdInt < 1 {
        Respond(w, r, 400, [WithError(ValidationFailed, IdMustBePositive)], [Root(Invalid(IdMustBePositive))]);
        return;
      }
      if |req.text| == 0 {
        Respond(w, r, 400, [WithError(ValidationFailed, TextMustNotBeEmpty)], [Root(Invalid(TextMustNotBeEmpty))]);
        return;
      }
      if !IsUuid(req.userId) {
        Respond(w, r, 400, [WithError(ValidationFailed, InvalidUuidForUserId)], [Root(BadUuid(req.userId))]);
        return;
      }
      var answer := Answer(0, questionIdInt, req.userId, req.text);
      var reply := service.CreateAnswerToQuestion(answer);
      if reply.Err? {
        Respond(w, r, 500, [WithError(InternalServerError, InternalServerErrorDesc)], [reply.error]);
        return;
      }
      Respond(w, r, 200, [WithData(AnswerCreated(reply.value))], []);
    }

    /** GET /answers/{id} */
    method GetAnswer(w: ResponseWriter<Response>, r: Request)
      requires w.Unwritten()
      modifies w, r, service
      ensures Logged(w, r) && OnlyKnownCodes(w)
      ensures w.sentHeader == old(w.header) && w.header == old(w.header)["Content-Type" := "application/json"]
      ensures match CheckId(r.pathId)
        case Err(rej) => service.log == old(service.log) && Answered(w, r, 400, Refusal(rej), [rej.reason])
        case Ok(answerId) =>
          && service.log == old(service.log) + [GetAnswerCall(answerId)]
          && match service.impl.getAnswer(answerId)
             case Err(e) => Answered(w, r, 500, InternalFailure(), [e])
             case Ok(answer) => Answered(w, r, 200, Success(Some(SingleAnswer(answer))), [])
    {
      var parsed := Atoi(r.pathId);
      if parsed.Err? {
        Respond(w, r, 400, [WithError(ValidationFailed, InvalidIdFormat)], [parsed.error]);
        return;
      }
      var answerId := parsed.value;
      if answerId < 1 {
        Respond(w, r, 400, [WithError(ValidationFailed, IdMustBePositive)], [Root(Invalid(IdMustBePositive))]);
        return;
      }
      var reply := service.GetAnswer(answerId);
      if reply.Err? {
        Respond(w, r, 500, [WithError(InternalServerError, InternalServerErrorDesc)], [reply.error]);
        return;
      }
      Respond(w, r, 200, [WithData(SingleAnswer(reply.value))], []);
    }

    /** DELETE /answers/{id} */
    method DeleteAnswer(w: ResponseWriter<Response>, r: Request)
      requires w.Unwritten()
      modifies w, r, service
      ensures Logged(w, r) && OnlyKnownCodes(w)
      ensures w.sentHeader == old(w.header) && w.header == old(w.header)["Content-Type" := "application/json"]
      ensures match CheckId(r.pathId)
        case Err(rej) => service.log == old(service.log) && Answered(w, r, 400, Refusal(rej), [rej.reason])
        case Ok(answerId) =>
          && service.log == old(service.log) + [DeleteAnswerCall(answerId)]
          && match service.impl.deleteAnswer(answerId)
             case Err(e) => Answered(w, r, 500, InternalFailure(), [e])
             case Ok(_) => Answered(w, r, 200, Success(None), [])
    {
      var parsed := Atoi(r.pathId);
      if parsed.Err? {
        Respond(w, r, 400, [WithError(ValidationFailed, InvalidIdFormat)], [parsed.error]);
        return;
      }
      var answerId := parsed.value;
      if answerId < 1 {
        Respond(w, r, 400, [WithError(ValidationFailed, IdMustBePositive)], [Root(Invalid(IdMustBePositive))]);
        return;
      }
      var reply := service.DeleteAnswer(answerId);
      if reply.Err? {
        Respond(w, r, 500, [WithError(InternalServerError, InternalServerErrorDesc)], [reply.error]);
        return;
      }
      Respond(w, r, 200, [], []);
    }
  }

  /** Every id the store hands out, written in decimal into a path, passes the id check unchanged. */
  lemma IssuedIdsPassCheck(id: int)
    requires 1 <= id <= MaxInt
    ensures CheckId(Itoa(id)) == Ok(id)
  {
  }

  /** The cases of the handler's tests for POST /questions/{id}/answers/. */
  lemma CreateAnswerTestCases(bad: Error)
    ensures var uuid := "f47ac10b-58cc-4372-a567-0e02b2c3de91";
      && CheckCreateAnswer(Ok(CreateAnswerToQuestionRequest(uuid, "text")), "1") == Ok(Answer(0, 1, uuid, "text"))
      && CheckCreateAnswer(Err(bad), "1") == Err(Rejection(JsonParsingFailed, InvalidRequestBody, bad))
      && CheckCreateAnswer(Ok(CreateAnswerToQuestionRequest(uuid, "text")), "slovo")
         == Err(Rejection(ValidationFailed, InvalidIdFormat, Root(BadNumber("slovo"))))
      && CheckCreateAnswer(Ok(CreateAnswerToQuestionRequest(uuid, "")), "1") == Err(Refused(TextMustNotBeEmpty))
      && CheckCreateAnswer(Ok(CreateAnswerToQuestionRequest("not-uuid", "text")), "1")
         == Err(Rejection(ValidationFailed, InvalidUuidForUserId, Root(BadUuid("not-uuid"))))
  {
    AtoiTestValues();
    UuidTestValues();
  }
}
