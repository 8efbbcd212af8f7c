/**
 * The use-case layer (package usecase): QNACrud hands every operation to one of two managers
 * and, on failure, wraps the manager's error with the operation's label. It never looks at
 * what kind of error it got.
 */
module Usecase {
  import opened Wrappers
  import opened Errors
  import opened Domain

  const OpCreateUser: string := "internal/usecase/service.QNACrud.CreateUser"
  const OpGetUsers: string := "internal/usecase/service.QNACrud.GetUsers"
  const OpGetQuestions: string := "internal/usecase/service.QNACrud.GetQuestions"
  const OpCreateQuestion: string := "internal/usecase/service.QNACrud.CreateQuestion"
  const OpGetQuestionAndAnswers: string := "internal/usecase/service.QNACrud.GetQuestionAndAnswers"
  const OpDeleteQuestionAndAnswers: string := "internal/usecase/service.QNACrud.DeleteQuestionAndAnswers"
  const OpCreateAnswerToQuestion: string := "internal/usecase/service.QNACrud.CreateAnswerToQuestion"
  const OpGetAnswer: string := "internal/usecase/service.QNACrud.GetAnswer"
  const OpDeleteAnswer: string := "internal/usecase/service.QNACrud.DeleteAnswer"
  // DeleteUser has no label of its own: it reuses OpGetUsers.

  /** The question and answer store the service is given (QNAManager). */
  datatype QnaManager = QnaManager(
    readQuestions: () -> Result<seq<Question>, Error>,
    createQuestion: string -> Result<int, Error>,
    readQuestionAndAnswers: int -> Result<(Question, seq<Answer>), Error>,
    deleteQuestionAndAnswers: int -> Result<(), Error>,
    createAnswerToQuestion: Answer -> Result<int, Error>,
    readAnswer: int -> Result<Answer, Error>,
    deleteAnswer: int -> Result<(), Error>)

  /** The user store the service is given (UserManager). */
  datatype UserManager = UserManager(
    createUser: string -> Result<string, Error>,
    readUsers: () -> Result<seq<User>, Error>,
    deleteUser: string -> Result<(), Error>)

  /**
   * r is what the service returns for the manager's reply under label op: success exactly
   * when the manager succeeded, with its value untouched; otherwise the manager's error with
   * the same root cause and op put in front of its labels.
   */
  ghost predicate Delegated<T>(r: Result<T, Error>, reply: Result<T, Error>, op: string)
  {
    && (r.Ok? <==> reply.Ok?)
    && (reply.Ok? ==> r.value == reply.value)
    && (reply.Err? ==> CauseOf(r.error) == CauseOf(reply.error) && Labels(r.error) == [op] + Labels(reply.error))
  }

  /** Pass a success through, wrap a failure with op. */
  function Relay<T>(reply: Result<T, Error>, op: string): (r: Result<T, Error>)
    ensures Delegated(r, reply, op)
  {
    match reply
    case Ok(v) => Ok(v)
    case Err(e) => Err(Wrap(e, op))
  }

  /** The service; its two managers are fixed when it is built (NewQNAManagerService). */
  datatype QNACrud = QNACrud(qnaManager: QnaManager, userManager: UserManager)
  {
    function CreateUser(userName: string): (r: Result<string, Error>)
      ensures Delegated(r, userManager.createUser(userName), OpCreateUser)
    {
      Relay(userManager.createUser(userName), OpCreateUser)
    }

    function GetUsers(): (r: Result<seq<User>, Error>)
      ensures Delegated(r, userManager.readUsers(), OpGetUsers)
    {
      Relay(userManager.readUsers(), OpGetUsers)
    }

    function DeleteUser(userId: string): (r: Result<(), Error>)
      ensures Delegated(r, userManager.deleteUser(userId), OpGetUsers)
    {
      Relay(userManager.deleteUser(userId), OpGetUsers)
    }

    function GetQuestions(): (r: Result<seq<Question>, Error>)
      ensures Delegated(r, qnaManager.readQuestions(), OpGetQuestions)
    {
      Relay(qnaManager.readQuestions(), OpGetQuestions)
    }

    function CreateQuestion(question: string): (r: Result<int, Error>)
      ensures Delegated(r, qnaManager.createQuestion(question), OpCreateQuestion)
    {
      Relay(qnaManager.createQuestion(question), OpCreateQuestion)
    }

    function GetQuestionAndAnswers(questionId: int): (r: Result<(Question, seq<Answer>), Error>)
      ensures Delegated(r, qnaManager.readQuestionAndAnswers(questionId), OpGetQuestionAndAnswers)
    {
      Relay(qnaManager.readQuestionAndAnswers(questionId), OpGetQuestionAndAnswers)
    }

    function DeleteQuestionAndAnswers(questionId: int): (r: Result<(), Error>)
      ensures Delegated(r, qnaManager.deleteQuestionAndAnswers(questionId), OpDeleteQuestionAndAnswers)
    {
      Relay(qnaManager.deleteQuestionAndAnswers(questionId), OpDeleteQuestionAndAnswers)
    }

    function CreateAnswerToQuestion(answer: Answer): (r: Result<int, Error>)
      ensures Delegated(r, qnaManager.createAnswerToQuestion(answer), OpCreateAnswerToQuestion)
    {
      Relay(qnaManager.createAnswerToQuestion(answer), OpCreateAnswerToQuestion)
    }

    function GetAnswer(answerId: int): (r: Result<Answer, Error>)
      ensures Delegated(r, qnaManager.readAnswer(answerId), OpGetAnswer)
    {
      Relay(qnaManager.readAnswer(answerId), OpGetAnswer)
    }

    function DeleteAnswer(answerId: int): (r: Result<(), Error>)
      ensures Delegated(r, qnaManager.deleteAnswer(answerId), OpDeleteAnswer)
    {
      Relay(qnaManager.deleteAnswer(answerId), OpDeleteAnswer)
    }
  }

  /**
   * Since the service keeps the cause and only adds a label, what the caller receives
   * determines the manager's reply exactly: two replies delegated to the same result are equal.
   */
  lemma {:induction false} DelegationDeterminesReply<T>(r: Result<T, Error>, a: Result<T, Error>,
                                                        b: Result<T, Error>, op: string)
    requires Delegated(r, a, op) && Delegated(r, b, op)
    ensures a == b
  {
    if r.Err? {
      assert Labels(a.error) == ([op] + Labels(a.error))[1..] == ([op] + Labels(b.error))[1..] == Labels(b.error);
      LabelsAndCauseDetermineError(a.error, b.error);
    }
  }

  /**
   * The DeleteUser label quirk: a failed DeleteUser and a failed GetUsers carry the same
   * outermost label, so the label alone cannot tell the two operations apart.
   */
  lemma DeleteUserLabelledAsGetUsers(s: QNACrud, userId: string)
    requires s.userManager.deleteUser(userId).Err? && s.userManager.readUsers().Err?
    ensures Labels(s.DeleteUser(userId).error)[0] == Labels(s.GetUsers().error)[0] == OpGetUsers
  {
  }
}
