/**
 * The response envelope {status, error?, data?}: the three error codes, the payloads the
 * handlers send, the two options that fill the envelope, and ReturnResponse, which builds it
 * and writes it out.
 */
module Envelope {
  import opened Wrappers
  import opened Errors
  import opened Domain
  import opened Http

  const ValidationFailed: string := "VALIDATION_FAILED"
  const JsonParsingFailed: string := "JSON_PARSING_FAILED"
  const InternalServerError: string := "INTERNAL_SERVER_ERROR"

  /** The error codes a response can carry. */
  predicate IsErrorCode(code: string)
  {
    code == ValidationFailed || code == JsonParsingFailed || code == InternalServerError
  }

  /** The label ReturnResponse puts on a failure to write the response. */
  const EncodeFailed: string := "failed to encode and write JSON response"

  datatype ErrorBody = ErrorBody(code: string, desc: string)

  /** The values handlers put under "data". */
  datatype Payload =
    | UserCreated(userId: string)                                  // CreateUserResponse
    | QuestionCreated(questionId: int)                             // CreateQuestionResponse
    | QuestionAndAnswers(question: Question, answers: seq<Answer>) // GetQuestionAndAnswersResponse
    | AnswerCreated(answerId: int)                                 // CreateAnswerToQuestionResponse
    | Users(users: seq<User>)
    | Questions(questions: seq<Question>)
    | SingleAnswer(answer: Answer)

  datatype Response = Response(status: string, error: Option<ErrorBody>, data: Option<Payload>)

  /** The options ReturnResponse takes; each stands for the closure WithError or WithData returns. */
  datatype ResponseOption = WithError(code: string, desc: string) | WithData(data: Payload)

  /** What one option does to the envelope: it sets its own field and no other. */
  function Apply(opt: ResponseOption, resp: Response): (r: Response)
    ensures r.status == resp.status
    ensures opt.WithError? ==> r.error == Some(ErrorBody(opt.code, opt.desc)) && r.data == resp.data
    ensures opt.WithData? ==> r.data == Some(opt.data) && r.error == resp.error
  {
    match opt
    case WithError(code, desc) => resp.(error := Some(ErrorBody(code, desc)))
    case WithData(data) => resp.(data := Some(data))
  }

  /** The error set by the last WithError in opts, if there is one. */
  function LastError(opts: seq<ResponseOption>): Option<ErrorBody>
  {
    if |opts| == 0 then None
    else if opts[|opts| - 1].WithError? then Some(ErrorBody(opts[|opts| - 1].code, opts[|opts| - 1].desc))
    else LastError(opts[..|opts| - 1])
  }

  /** The data set by the last WithData in opts, if there is one. */
  function LastData(opts: seq<ResponseOption>): Option<Payload>
  {
    if |opts| == 0 then None
    else if opts[|opts| - 1].WithData? then Some(opts[|opts| - 1].data)
    else LastData(opts[..|opts| - 1])
  }

  /** A single option sets its own field and leaves the other unset. */
  lemma SingleOption(o: ResponseOption)
    ensures LastError([o]) == if o.WithError? then Some(ErrorBody(o.code, o.desc)) else None
    ensures LastData([o]) == if o.WithData? then Some(o.data) else None
  {
  }

  /**
   * The envelope ReturnResponse builds before writing: the reason phrase of the status,
   * then every option applied in turn to the same record.
   */
  method NewResponse(httpStatus: int, opts: seq<ResponseOption>) returns (resp: Response)
    ensures resp.status == StatusText(httpStatus)
    ensures resp.error == LastError(opts)
    ensures resp.data == LastData(opts)
  {
    resp := Response(StatusText(httpStatus), None, None);
    for i := 0 to |opts|
      invariant resp.status == StatusText(httpStatus)
      invariant resp.error == LastError(opts[..i])
      invariant resp.data == LastData(opts[..i])
    {
      resp := Apply(opts[i], resp);
      assert opts[..i + 1][..i] == opts[..i];
    }
    assert opts[..|opts|] == opts;
  }

  /** What ReturnResponse adds to the error list when writing the response failed. */
  function EncodeErrors(fault: Option<string>): (errs: seq<Error>)
    ensures |errs| == (if fault.Some? then 1 else 0)
    ensures fault.Some? ==> CauseOf(errs[0]) == WriteFailure(fault.value) && Labels(errs[0]) == [EncodeFailed]
  {
    if fault.Some? then [Wrap(Root(WriteFailure(fault.value)), EncodeFailed)] else []
  }

  /**
   * ReturnResponse: writes the status, then sets Content-Type (too late to be sent), then
   * writes the envelope; a failed write comes back wrapped.
   */
  method ReturnResponse(w: ResponseWriter<Response>, httpStatus: int, opts: seq<ResponseOption>)
    returns (err: Option<Error>)
    modifies w
    ensures w.wroteHeader
    ensures w.status == if old(w.wroteHeader) then old(w.status) else httpStatus
    ensures w.sentHeader == if old(w.wroteHeader) then old(w.sentHeader) else old(w.header)
    ensures w.header == old(w.header)["Content-Type" := "application/json"]
    ensures w.body == old(w.body) +
      (if w.fault.None? then [Response(StatusText(httpStatus), LastError(opts), LastData(opts))] else [])
    ensures err == (if w.fault.Some? then Some(EncodeErrors(w.fault)[0]) else None)
  {
    var resp := NewResponse(httpStatus, opts);
    w.WriteHeader(httpStatus);
    w.SetHeader("Content-Type", "application/json");
    var e := w.Write(resp);
    if e.Some? {
      err := Some(Wrap(e.value, EncodeFailed));
    } else {
      err := None;
    }
  }

  /** opts[i] is a WithError and no WithError comes after it. */
  ghost predicate LastErrorAt(opts: seq<ResponseOption>, i: int)
  {
    0 <= i < |opts| && opts[i].WithError? && forall j :: i < j < |opts| ==> !opts[j].WithError?
  }

  /** opts[i] is a WithData and no WithData comes after it. */
  ghost predicate LastDataAt(opts: seq<ResponseOption>, i: int)
  {
    0 <= i < |opts| && opts[i].WithData? && forall j :: i < j < |opts| ==> !opts[j].WithData?
  }

  /**
   * Options are applied left to right and each overwrites its own field: the envelope has
   * an error exactly when some option is a WithError, and it is the one of the last.
   */
  lemma {:induction false} LastErrorWins(opts: seq<ResponseOption>)
    ensures LastError(opts).None? <==> forall i :: 0 <= i < |opts| ==> !opts[i].WithError?
    ensures LastError(opts).Some? ==>
      exists i :: LastErrorAt(opts, i) && LastError(opts).value == ErrorBody(opts[i].code, opts[i].desc)
  {
    if |opts| > 0 {
      var n := |opts| - 1;
      var init := opts[..n];
      assert forall i :: 0 <= i < n ==> opts[i] == init[i];
      if opts[n].WithError? {
        assert LastErrorAt(opts, n);
      } else {
        assert LastError(opts) == LastError(init);
        LastErrorWins(init);
        if LastError(init).Some? {
          var i :| LastErrorAt(init, i) && LastError(init).value == ErrorBody(init[i].code, init[i].desc);
          assert LastErrorAt(opts, i);
        }
      }
    }
  }

  /** The same for data: the envelope has data exactly when some option is a WithData, the last one's. */
  lemma {:induction false} LastDataWins(opts: seq<ResponseOption>)
    ensures LastData(opts).None? <==> forall i :: 0 <= i < |opts| ==> !opts[i].WithData?
    ensures LastData(opts).Some? ==>
      exists i :: LastDataAt(opts, i) && LastData(opts).value == opts[i].data
  {
    if |opts| > 0 {
      var n := |opts| - 1;
      var init := opts[..n];
      assert forall i :: 0 <= i < n ==> opts[i] == init[i];
      if opts[n].WithData? {
        assert LastDataAt(opts, n);
      } else {
        assert LastData(opts) == LastData(init);
        LastDataWins(init);
        if LastData(init).Some? {
          var i :| LastDataAt(init, i) && LastData(init).value == init[i].data;
          assert LastDataAt(opts, i);
        }
      }
    }
  }

  /**
   * Because each option touches one field only, swapping a WithError with a neighbouring
   * WithData changes nothing in the envelope.
   */
  lemma {:induction false} ErrorAndDataOptionsCommute(p: seq<ResponseOption>, a: ResponseOption,
                                                       b: ResponseOption, q: seq<ResponseOption>)
    requires a.WithError? && b.WithData?
    ensures LastError(p + [a, b] + q) == LastError(p + [b, a] + q)
    ensures LastData(p + [a, b] + q) == LastData(p + [b, a] + q)
  {
    if |q| == 0 {
      assert p + [a, b] + q == (p + [a]) + [b];
      assert p + [b, a] + q == (p + [b]) + [a];
      assert (p + [a]) + [b] == p + [a, b];
      assert (p + [a, b])[..|p| + 1] == p + [a];
      assert (p + [b, a])[..|p| + 1] == p + [b];
      assert (p + [a])[..|p|] == p;
      assert (p + [b])[..|p|] == p;
    } else {
      var q' := q[..|q| - 1];
      ErrorAndDataOptionsCommute(p, a, b, q');
      assert (p + [a, b] + q)[..|p + [a, b] + q| - 1] == p + [a, b] + q';
      assert (p + [b, a] + q)[..|p + [b, a] + q| - 1] == p + [b, a] + q';
    }
  }
}
