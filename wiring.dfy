/**
 * How the program puts the layers together: the one repository serves as both managers of
 * the service, and the service is what the handlers call.
 */
module Wiring {
  import opened Wrappers
  import opened Errors
  import Usecase
  import Db
  import Parsing
  import Http
  import Envelope
  import Handler

  /** The repository seen as the question and answer manager. */
  function AsQnaManager(repo: Db.Repository): Usecase.QnaManager
  {
    Usecase.QnaManager(
      () => repo.QuestionsRead(),
      question => repo.CreateQuestion(question),
      questionId => repo.QuestionAndAnswersRead(questionId),
      questionId => repo.DeleteQuestionAndAnswers(questionId),
      answer => repo.CreateAnswerToQuestion(answer),
      answerId => repo.ReadAnswer(answerId),
      answerId => repo.DeleteAnswer(answerId))
  }

  /** The repository seen as the user manager. */
  function AsUserManager(repo: Db.Repository): Usecase.UserManager
  {
    Usecase.UserManager(
      userName => repo.CreateUser(userName),
      () => repo.UsersRead(),
      userId => repo.DeleteUser(userId))
  }

  /** The service over one repository, as the program builds it. */
  function ServiceOver(repo: Db.Repository): (s: Usecase.QNACrud)
    ensures forall userName :: s.userManager.createUser(userName) == repo.CreateUser(userName)
    ensures s.userManager.readUsers() == repo.UsersRead()
    ensures forall userId :: s.userManager.deleteUser(userId) == repo.DeleteUser(userId)
    ensures s.qnaManager.readQuestions() == repo.QuestionsRead()
    ensures forall question :: s.qnaManager.createQuestion(question) == repo.CreateQuestion(question)
    ensures forall questionId :: s.qnaManager.readQuestionAndAnswers(questionId) == repo.QuestionAndAnswersRead(questionId)
    ensures forall questionId :: s.qnaManager.deleteQuestionAndAnswers(questionId) == repo.DeleteQuestionAndAnswers(questionId)
    ensures forall answer :: s.qnaManager.createAnswerToQuestion(answer) == repo.CreateAnswerToQuestion(answer)
    ensures forall answerId :: s.qnaManager.readAnswer(answerId) == repo.ReadAnswer(answerId)
    ensures forall answerId :: s.qnaManager.deleteAnswer(answerId) == repo.DeleteAnswer(answerId)
  {
    Usecase.QNACrud(AsQnaManager(repo), AsUserManager(repo))
  }

  /** The service as the handlers call it. */
  function AsDispatcher(s: Usecase.QNACrud): (d: Handler.Dispatcher)
    ensures forall userName :: d.createUser(userName) == s.CreateUser(userName)
    ensures d.getUsers() == s.GetUsers()
    ensures forall userId :: d.deleteUser(userId) == s.DeleteUser(userId)
    ensures d.getQuestions() == s.GetQuestions()
    ensures forall question :: d.createQuestion(question) == s.CreateQuestion(question)
    ensures forall questionId :: d.getQuestionAndAnswers(questionId) == s.GetQuestionAndAnswers(questionId)
    ensures forall questionId :: d.deleteQuestionAndAnswers(questionId) == s.DeleteQuestionAndAnswers(questionId)
    ensures forall answer :: d.createAnswerToQuestion(answer) == s.CreateAnswerToQuestion(answer)
    ensures forall answerId :: d.getAnswer(answerId) == s.GetAnswer(answerId)
    ensures forall answerId :: d.deleteAnswer(answerId) == s.DeleteAnswer(answerId)
  {
    Handler.Dispatcher(
      userName => s.CreateUser(userName),
      () => s.GetUsers(),
      userId => s.DeleteUser(userId),
      () => s.GetQuestions(),
      question => s.CreateQuestion(question),
      questionId => s.GetQuestionAndAnswers(questionId),
      questionId => s.DeleteQuestionAndAnswers(questionId),
      answer => s.CreateAnswerToQuestion(answer),
      answerId => s.GetAnswer(answerId),
      answerId => s.DeleteAnswer(answerId))
  }

  /**
   * Deleting an answer that is not there: the store deletes nothing, the repository reports
   * ErrNotFound, and the handler receives it under the service's label and the repository's,
   * outermost first. It is an error like any other there: DeleteMissingAnswerRequest shows
   * the client gets a 500.
   */
  lemma DeletingMissingAnswer(repo: Db.Repository, answerId: int)
    requires repo.store.deleteAnswer(answerId) == Db.Exec(None, 0)
    ensures var r := AsDispatcher(ServiceOver(repo)).deleteAnswer(answerId);
      && r.Err?
      && CauseOf(r.error) == NotFound
      && Labels(r.error) == [Usecase.OpDeleteAnswer, Db.OpDeleteAnswer]
  {
  }

  /**
   * Reading an answer that is not there: the store's record-not-found cause travels up
   * unchanged through both layers; it never becomes the repository's ErrNotFound.
   */
  lemma ReadingMissingAnswer(repo: Db.Repository, answerId: int)
    requires repo.store.firstAnswer(answerId) == Err(Root(RecordNotFound))
    ensures var r := AsDispatcher(ServiceOver(repo)).getAnswer(answerId);
      && r.Err?
      && CauseOf(r.error) == RecordNotFound
      && Labels(r.error) == [Usecase.OpGetAnswer, Db.OpReadAnswer]
  {
  }

  /** Ids the store generates come back to the handler unchanged when the insert wrote a row. */
  lemma CreatedQuestionIdReachesHandler(repo: Db.Repository, question: string)
    requires var ins := repo.store.insertQuestion(Db.QuestionRow(0, question, 0));
      ins.exec.error.None? && ins.exec.rowsAffected > 0
    ensures AsDispatcher(ServiceOver(repo)).createQuestion(question)
      == Ok(repo.store.insertQuestion(Db.QuestionRow(0, question, 0)).row.id)
  {
  }

  /**
   * DELETE /answers/{id} for an answer that is not there, through all three layers as the
   * program assembles them: the handler answers 500 "internal server error" and logs the
   * not-found error.
   */
  method DeleteMissingAnswerRequest(repo: Db.Repository, answerId: int,
                                    w: Http.ResponseWriter<Envelope.Response>, r: Http.Request)
    requires 1 <= answerId <= Parsing.MaxInt
    requires r.pathId == Parsing.Itoa(answerId)
    requires repo.store.deleteAnswer(answerId) == Db.Exec(None, 0)
    requires w.Unwritten()
    modifies w, r
    ensures w.status == 500 && r.ctxStatus == Some(500)
    ensures w.fault.None? ==> w.body == [Handler.InternalFailure()]
    ensures r.ctxErrors.Some? && |r.ctxErrors.value| > 0 && CauseOf(r.ctxErrors.value[0]) == NotFound
  {
    var service := new Handler.Service(AsDispatcher(ServiceOver(repo)));
    var api := new Handler.ServerApi(service);
    Handler.IssuedIdsPassCheck(answerId);
    DeletingMissingAnswer(repo, answerId);
    api.DeleteAnswer(w, r);
  }
}
