/**
 * The Postgres repository (package db). The ORM itself is not modelled: each statement's
 * outcome is an input (the error it reported, the rows it affected, the rows it found), and
 * the model is what the repository makes of that outcome.
 */
module Db {
  import opened Wrappers
  import opened Errors
  import opened Domain

  const OpCreateUser: string := "internal/infrastructure/db/repository.Repository.CreateUser"
  const OpReadUsers: string := "internal/infrastructure/db/repository.Repository.ReadUsers"
  const OpDeleteUser: string := "internal/infrastructure/db/repository.Repository.DeleteUser"
  const OpReadQuestions: string := "internal/infrastructure/db/repository.Repository.ReadQuestion"
  const OpCreateQuestion: string := "internal/infrastructure/db/repository.Repository.CreateQuestion"
  const OpReadQuestionAndAnswers: string := "internal/infrastructure/db/repository.Repository.ReadQuestionAndAnswers"
  const OpCreateAnswerToQuestion: string := "internal/infrastructure/db/repository.Repository.CreateAnswerToQuestion"
  const OpReadAnswer: string := "internal/infrastructure/db/repository.Repository.ReadAnswer"
  const OpDeleteAnswer: string := "internal/infrastructure/db/repository.Repository.DeleteAnswer"
  // DeleteQuestionAndAnswers has no label of its own: it reuses OpReadQuestionAndAnswers.

  /** The repository's own "not found" error. */
  const ErrNotFound: Error := Root(NotFound)

  /** Table rows; createdAt stands for the timestamp column, which never reaches the domain. */
  datatype UserRow = UserRow(id: string, name: string, createdAt: int)
  datatype QuestionRow = QuestionRow(id: int, text: string, createdAt: int)
  datatype AnswerRow = AnswerRow(id: int, questionId: int, userId: string, text: string, createdAt: int)

  /** What the store reports for an insert or a delete. */
  datatype Exec = Exec(error: Option<Error>, rowsAffected: nat)

  /** The outcome of an insert: the report, and the row as stored, with its generated id. */
  datatype Insertion<Row> = Insertion(exec: Exec, row: Row)

  /** A query the repository sent while reading a question. */
  datatype Query = FirstQuestion(questionId: int) | AnswersOfQuestion(questionId: int)

  /**
   * The store as the repository sees it: for each statement, what it answers. answers is
   * the answers table as a read of it sees it; the WHERE clause is Select below.
   */
  datatype Store = Store(
    insertUser: UserRow -> Insertion<UserRow>,
    findUsers: () -> Result<seq<UserRow>, Error>,
    deleteUser: string -> Exec,
    findQuestions: () -> Result<seq<QuestionRow>, Error>,
    insertQuestion: QuestionRow -> Insertion<QuestionRow>,
    firstQuestion: int -> Result<QuestionRow, Error>,
    answers: () -> Result<seq<AnswerRow>, Error>,
    deleteQuestion: int -> Exec,
    insertAnswer: AnswerRow -> Insertion<AnswerRow>,
    firstAnswer: int -> Result<AnswerRow, Error>,
    deleteAnswer: int -> Exec)

  /**
   * The reading of an insert: a store error comes back wrapped; no error but no row written
   * is reported as ErrNotFound, wrapped; otherwise the generated id is the result.
   */
  ghost predicate CreateReport<T>(exec: Exec, op: string, id: T, r: Result<T, Error>)
  {
    && (r.Ok? <==> exec.error.None? && exec.rowsAffected > 0)
    && (r.Ok? ==> r.value == id)
    && (exec.error.Some? ==> r == Err(Wrap(exec.error.value, op)))
    && (exec.error.None? && exec.rowsAffected == 0 ==> r == Err(Wrap(ErrNotFound, op)))
  }

  /** The reading of a delete: the same rule, with nothing to return on success. */
  ghost predicate DeleteReport(exec: Exec, op: string, r: Result<(), Error>)
  {
    && (r.Ok? <==> exec.error.None? && exec.rowsAffected > 0)
    && (exec.error.Some? ==> r == Err(Wrap(exec.error.value, op)))
    && (exec.error.None? && exec.rowsAffected == 0 ==> r == Err(Wrap(ErrNotFound, op)))
  }

  function Created<T>(exec: Exec, op: string, id: T): (r: Result<T, Error>)
    ensures CreateReport(exec, op, id, r)
  {
    if exec.error.Some? then Err(Wrap(exec.error.value, op))
    else if exec.rowsAffected == 0 then Err(Wrap(ErrNotFound, op))
    else Ok(id)
  }

  function Deleted(exec: Exec, op: string): (r: Result<(), Error>)
    ensures DeleteReport(exec, op, r)
  {
    if exec.error.Some? then Err(Wrap(exec.error.value, op))
    else if exec.rowsAffected == 0 then Err(Wrap(ErrNotFound, op))
    else Ok(())
  }

  function UserOf(row: UserRow): User
  {
    User(row.id, row.name)
  }

  function QuestionOf(row: QuestionRow): Question
  {
    Question(row.id, row.text)
  }

  function AnswerOf(row: AnswerRow): Answer
  {
    Answer(row.id, row.questionId, row.userId, row.text)
  }

  /** The row CreateAnswerToQuestion inserts: the answer's question, user and text; id and timestamp left to the store. */
  function NewAnswerRow(answer: Answer): (row: AnswerRow)
    ensures row.questionId == answer.questionId && row.userId == answer.userId && row.text == answer.text
    ensures row.id == 0 && row.createdAt == 0
  {
    AnswerRow(0, answer.questionId, answer.userId, answer.text, 0)
  }

  /** The rows of the answers table with the given question id, in table order (the WHERE clause). */
  function Select(rows: seq<AnswerRow>, questionId: int): (s: seq<AnswerRow>)
    ensures |s| <= |rows|
  {
    if |rows| == 0 then []
    else if rows[0].questionId == questionId then [rows[0]] + Select(rows[1..], questionId)
    else Select(rows[1..], questionId)
  }

  /** Select keeps exactly the rows of the question asked for. */
  lemma {:induction false} SelectKeepsExactlyMatching(rows: seq<AnswerRow>, questionId: int)
    ensures forall row :: row in Select(rows, questionId) <==> row in rows && row.questionId == questionId
  {
    if |rows| > 0 {
      SelectKeepsExactlyMatching(rows[1..], questionId);
      assert rows == [rows[0]] + rows[1..];
    }
  }

  /** The domain values of a list of rows: the same length and order, converted one by one. */
  function UsersFrom(rows: seq<UserRow>): (users: seq<User>)
    ensures |users| == |rows|
  {
    seq(|rows|, i requires 0 <= i < |rows| => UserOf(rows[i]))
  }

  function QuestionsFrom(rows: seq<QuestionRow>): (questions: seq<Question>)
    ensures |questions| == |rows|
  {
    seq(|rows|, i requires 0 <= i < |rows| => QuestionOf(rows[i]))
  }

  function AnswersFrom(rows: seq<AnswerRow>): (answers: seq<Answer>)
    ensures |answers| == |rows|
  {
    seq(|rows|, i requires 0 <= i < |rows| => AnswerOf(rows[i]))
  }

  /**
   * The repository over a store. The question lookups go through FindFirstQuestion and
   * FindAnswers, which record each query sent in the ghost log queries.
   */
  class Repository {
    const store: Store
    ghost var queries: seq<Query>

    constructor (store: Store)
      ensures this.store == store && queries == []
    {
      this.store := store;
      queries := [];
    }

    /** SELECT the question with this id (First). */
    method FindFirstQuestion(questionId: int) returns (r: Result<QuestionRow, Error>)
      modifies this
      ensures queries == old(queries) + [FirstQuestion(questionId)]
      ensures r == store.firstQuestion(questionId)
    {
      queries := queries + [FirstQuestion(questionId)];
      r := store.firstQuestion(questionId);
    }

    /** SELECT the answers WHERE question_id = questionId (Find). */
    method FindAnswers(questionId: int) returns (r: Result<seq<AnswerRow>, Error>)
      modifies this
      ensures queries == old(queries) + [AnswersOfQuestion(questionId)]
      ensures r.Ok? <==> store.answers().Ok?
      ensures r.Err? ==> r == Err(store.answers().error)
      ensures r.Ok? ==> r.value == Select(store.answers().value, questionId)
    {
      queries := queries + [AnswersOfQuestion(questionId)];
      match store.answers()
      case Err(e) => r := Err(e);
      case Ok(table) => r := Ok(Select(table, questionId));
    }

    function CreateUser(userName: string): (r: Result<string, Error>)
      ensures var ins := store.insertUser(UserRow("", userName, 0));
        CreateReport(ins.exec, OpCreateUser, ins.row.id, r)
    {
      var ins := store.insertUser(UserRow("", userName, 0));
      Created(ins.exec, OpCreateUser, ins.row.id)
    }

    /** What ReadUsers returns: the store's error wrapped, or every row as a user, in order. */
    function UsersRead(): (r: Result<seq<User>, Error>)
      ensures store.findUsers().Err? ==> r == Err(Wrap(store.findUsers().error, OpReadUsers))
      ensures store.findUsers().Ok? ==> r.Ok? && |r.value| == |store.findUsers().value|
      ensures store.findUsers().Ok? ==>
        forall i :: 0 <= i < |r.value| ==> r.value[i] == UserOf(store.findUsers().value[i])
    {
      match store.findUsers()
      case Err(e) => Err(Wrap(e, OpReadUsers))
      case Ok(rows) => Ok(UsersFrom(rows))
    }

    method ReadUsers() returns (r: Result<seq<User>, Error>)
      ensures r == UsersRead()
    {
      var found := store.findUsers();
      if found.Err? {
        return Err(Wrap(found.error, OpReadUsers));
      }
      var rows := found.value;
      var users: seq<User> := [];
      for i := 0 to |rows|
        invariant users == UsersFrom(rows[..i])
      {
        users := users + [UserOf(rows[i])];
      }
      assert rows[..|rows|] == rows;
      return Ok(users);
    }

    function DeleteUser(userId: string): (r: Result<(), Error>)
      ensures DeleteReport(store.deleteUser(userId), OpDeleteUser, r)
    {
      Deleted(store.deleteUser(userId), OpDeleteUser)
    }

    /** What ReadQuestions returns: the store's error wrapped, or every row as a question, in order. */
    function QuestionsRead(): (r: Result<seq<Question>, Error>)
      ensures store.findQuestions().Err? ==> r == Err(Wrap(store.findQuestions().error, OpReadQuestions))
      ensures store.findQuestions().Ok? ==> r.Ok? && |r.value| == |store.findQuestions().value|
      ensures store.findQuestions().Ok? ==>
        forall i :: 0 <= i < |r.value| ==> r.value[i] == QuestionOf(store.findQuestions().value[i])
    {
      match store.findQuestions()
      case Err(e) => Err(Wrap(e, OpReadQuestions))
      case Ok(rows) => Ok(QuestionsFrom(rows))
    }

    method ReadQuestions() returns (r: Result<seq<Question>, Error>)
      ensures r == QuestionsRead()
    {
      var found := store.findQuestions();
      if found.Err? {
        return Err(Wrap(found.error, OpReadQuestions));
      }
      var rows := found.value;
      var questions: seq<Question> := [];
      for i := 0 to |rows|
        invariant questions == QuestionsFrom(rows[..i])
      {
        questions := questions + [QuestionOf(rows[i])];
      }
      assert rows[..|rows|] == rows;
      return Ok(questions);
    }

    function CreateQuestion(question: string): (r: Result<int, Error>)
      ensures var ins := store.insertQuestion(QuestionRow(0, question, 0));
        CreateReport(ins.exec, OpCreateQuestion, ins.row.id, r)
    {
      var ins := store.insertQuestion(QuestionRow(0, question, 0));
      Created(ins.exec, OpCreateQuestion, ins.row.id)
    }

    /**
     * What ReadQuestionAndAnswers returns: a failed question lookup or a failed answers read
     * comes back wrapped; otherwise the question and the answers of that question.
     */
    function QuestionAndAnswersRead(questionId: int): (r: Result<(Question, seq<Answer>), Error>)
      ensures store.firstQuestion(questionId).Err? ==>
        r == Err(Wrap(store.firstQuestion(questionId).error, OpReadQuestionAndAnswers))
      ensures store.firstQuestion(questionId).Ok? && store.answers().Err? ==>
        r == Err(Wrap(store.answers().error, OpReadQuestionAndAnswers))
      ensures r.Ok? <==> store.firstQuestion(questionId).Ok? && store.answers().Ok?
      ensures r.Ok? ==> r.value.0 == QuestionOf(store.firstQuestion(questionId).value)
    {
      match store.firstQuestion(questionId)
      case Err(e) => Err(Wrap(e, OpReadQuestionAndAnswers))
      case Ok(row) =>
        match store.answers()
        case Err(e) => Err(Wrap(e, OpReadQuestionAndAnswers))
        case Ok(table) => Ok((QuestionOf(row), AnswersFrom(Select(table, questionId))))
    }

    /**
     * ReadQuestionAndAnswers: the answers are only asked for once the question was found.
     */
    method ReadQuestionAndAnswers(questionId: int) returns (r: Result<(Question, seq<Answer>), Error>)
      modifies this
      ensures r == QuestionAndAnswersRead(questionId)
      ensures queries == old(queries) +
        if store.firstQuestion(questionId).Err? then [FirstQuestion(questionId)]
        else [FirstQuestion(questionId), AnswersOfQuestion(questionId)]
    {
      var first := FindFirstQuestion(questionId);
      if first.Err? {
        return Err(Wrap(first.error, OpReadQuestionAndAnswers));
      }
      var found := FindAnswers(questionId);
      if found.Err? {
        return Err(Wrap(found.error, OpReadQuestionAndAnswers));
      }
      var rows := found.value;
      var question := QuestionOf(first.value);
      var answers: seq<Answer> := [];
      for i := 0 to |rows|
        invariant answers == AnswersFrom(rows[..i])
      {
        answers := answers + [AnswerOf(rows[i])];
      }
      assert rows[..|rows|] == rows;
      return Ok((question, answers));
    }

    /** DeleteQuestionAndAnswers labels its errors with the ReadQuestionAndAnswers label. */
    function DeleteQuestionAndAnswers(questionId: int): (r: Result<(), Error>)
      ensures DeleteReport(store.deleteQuestion(questionId), OpReadQuestionAndAnswers, r)
    {
      Deleted(store.deleteQuestion(questionId), OpReadQuestionAndAnswers)
    }

    function CreateAnswerToQuestion(answer: Answer): (r: Result<int, Error>)
      ensures var ins := store.insertAnswer(NewAnswerRow(answer));
        CreateReport(ins.exec, OpCreateAnswerToQuestion, ins.row.id, r)
    {
      var ins := store.insertAnswer(NewAnswerRow(answer));
      Created(ins.exec, OpCreateAnswerToQuestion, ins.row.id)
    }

    /** A failed lookup comes back as the store's own error, wrapped: it is never turned into ErrNotFound. */
    function ReadAnswer(answerId: int): (r: Result<Answer, Error>)
      ensures r.Ok? <==> store.firstAnswer(answerId).Ok?
      ensures r.Ok? ==> r.value == AnswerOf(store.firstAnswer(answerId).value)
      ensures r.Err? ==> r.error == Wrap(store.firstAnswer(answerId).error, OpReadAnswer)
    {
      match store.firstAnswer(answerId)
      case Err(e) => Err(Wrap(e, OpReadAnswer))
      case Ok(row) => Ok(AnswerOf(row))
    }

    function DeleteAnswer(answerId: int): (r: Result<(), Error>)
      ensures DeleteReport(store.deleteAnswer(answerId), OpDeleteAnswer, r)
    {
      Deleted(store.deleteAnswer(answerId), OpDeleteAnswer)
    }
  }

  /**
   * The answers ReadQuestionAndAnswers returns are exactly those of the answers table that
   * belong to the question asked for, each copied field for field.
   */
  lemma {:induction false} AnswersBelongToQuestion(repo: Repository, questionId: int)
    requires repo.QuestionAndAnswersRead(questionId).Ok?
    ensures var answers := repo.QuestionAndAnswersRead(questionId).value.1;
      var table := repo.store.answers().value;
      && (forall a :: a in answers ==> a.questionId == questionId)
      && (forall row :: row in table && row.questionId == questionId ==> AnswerOf(row) in answers)
      && (forall a :: a in answers ==> exists row :: row in table && row.questionId == questionId && a == AnswerOf(row))
  {
    var table := repo.store.answers().value;
    var rows := Select(table, questionId);
    var answers := repo.QuestionAndAnswersRead(questionId).value.1;
    assert answers == AnswersFrom(rows);
    SelectKeepsExactlyMatching(table, questionId);
    forall row | row in table && row.questionId == questionId
      ensures AnswerOf(row) in answers
    {
      var i :| 0 <= i < |rows| && rows[i] == row;
      assert answers[i] == AnswerOf(row);
    }
    forall a | a in answers
      ensures exists row :: row in table && row.questionId == questionId && a == AnswerOf(row)
    {
      var i :| 0 <= i < |answers| && answers[i] == a;
      assert rows[i] in rows;
      assert a == AnswerOf(rows[i]);
    }
  }

  /** A missing answer is reported with the store's record-not-found cause, not with ErrNotFound. */
  lemma MissingAnswerKeepsStoreCause(repo: Repository, answerId: int)
    requires repo.store.firstAnswer(answerId) == Err(Root(RecordNotFound))
    ensures CauseOf(repo.ReadAnswer(answerId).error) == RecordNotFound
    ensures repo.ReadAnswer(answerId).error != Wrap(ErrNotFound, OpReadAnswer)
  {
  }
}
