/** The domain entities; they carry no behaviour of their own. */
module Domain {

  /** A question; its id is assigned by the store. */
  datatype Question = Question(id: int, text: string)

  /** An answer to the question questionId, written by the user userId. */
  datatype Answer = Answer(id: int, questionId: int, userId: string, text: string)

  /** A user; the store generates its id, a UUID in text form. */
  datatype User = User(id: string, name: string)
}

/** The bodies of the three POST requests, as the JSON decoder fills them. */
module Requests {

  datatype CreateUserRequest = CreateUserRequest(name: string)

  datatype CreateQuestionRequest = CreateQuestionRequest(text: string)

  datatype CreateAnswerToQuestionRequest = CreateAnswerToQuestionRequest(userId: string, text: string)
}
