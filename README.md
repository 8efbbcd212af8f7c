# qna — a Dafny model of the question-and-answer service

qna is a small HTTP service over Postgres. It stores users, questions and answers to questions. It has three layers:

- **REST handlers** (`serverAPI`). Each handler checks its request in a fixed order: the body decodes, integer path ids parse and are positive, text fields are not empty, and UUIDs are well formed. The first failing check answers 400 with an error code and description. If every check passes, the handler calls the service once, and any service error becomes a 500.
- **Response envelope.** Every handler writes exactly one `{status, error?, data?}` envelope through `ReturnResponse`. It then records the status and the errors it met on the request, for the logging middleware.
- **Service and repository.** The use-case service (`QNACrud`) hands each operation to a user manager or a question-and-answer manager and labels any error with the operation's name. The repository runs one ORM statement per operation (two for `ReadQuestionAndAnswers`: the question, then its answers) and interprets the outcome. An insert or delete that affected no row becomes `ErrNotFound`. Found rows are converted to domain values one by one.

The model has one module per source layer:

| module | file | what it holds |
|---|---|---|
| `Wrappers` | wrappers.dfy | `Option`, `Result` |
| `Errors` | errors.dfy | error chains: a root cause plus the labels `errors.Wrap` added |
| `Domain`, `Requests` | domain.dfy | the entities and request bodies |
| `Parsing` | parsing.dfy | `strconv.Atoi` and `uuid.Parse`, as far as the handlers use them |
| `Http`, `Middleware` | http.dfy | the `ResponseWriter` and request the handlers work on, `StatusText`, `UpdateContext` |
| `Envelope` | envelope.dfy | response.go |
| `Handler` | handler.dfy | handler.go: pure check functions, and a `ServerApi` class of handler methods |
| `Usecase` | service.dfy | service.go |
| `Db` | repository.dfy | repository.go: the store's answers are inputs |
| `Wiring` | wiring.dfy | main.go's assembly of the layers, and facts that cross them |

Dependencies are datatypes of functions. Examples are the handler's `Dispatcher`, the service's two managers and the repository's `Store`. A layer's contract is stated in terms of what its dependency answered. The handlers reach the service only through the methods of a `Service` object. Each of those methods appends the call to a ghost log. Each handler's contract says exactly how that log grows: a rejected request leaves it unchanged. The repository's question lookups are logged the same way, in `Repository.queries`.

Two behaviours of the code are easy to miss; the model follows the code:

- **Not-found reads.** `ReadAnswer` and `ReadQuestionAndAnswers` report a missing row with the store's own record-not-found error (wrapped), not with `ErrNotFound`.
- **Content-Type.** `ReturnResponse` sets `Content-Type: application/json` only after `WriteHeader`, so the header is never sent. The model's `ResponseWriter` takes its snapshot of the headers at `WriteHeader`, and each handler's contract says the headers sent are the ones present before the handler ran.

Two copy-paste labels are modelled as written:

- `QNACrud.DeleteUser` wraps its errors with the `GetUsers` operation name.
- `Repository.DeleteQuestionAndAnswers` uses the `ReadQuestionAndAnswers` name, and `Repository.ReadQuestions` uses `...Repository.ReadQuestion`.

## Model

| member | source | states |
|---|---|---|
| Errors.Wrap | internal/usecase/service.go:42 | wrapping keeps the root cause and puts the label in front of the existing labels |
| Errors.LabelsAndCauseDetermineError | internal/usecase/service.go:41-43 | an error chain is determined by its cause and its labels, so wrapping loses nothing |
| Parsing.Atoi | internal/infrastructure/rest/handler.go:350-362 | success gives the value the signed decimal text denotes, within the 64-bit int range; failure happens exactly when no int in range is denoted, and carries a number error naming the text |
| Parsing.AtoiRejectsNonDigit | internal/infrastructure/rest/handler.go:350-362 | a non-digit anywhere other than a leading sign makes parsing fail |
| Parsing.Digits | internal/infrastructure/rest/handler.go:350 | the decimal digits of a natural number, read back to the same number |
| Parsing.DigitChar | internal/infrastructure/rest/handler.go:350 | the digit character of a value below ten |
| Parsing.AtoiReadsItoa | internal/infrastructure/rest/handler.go:350 | every int in range, written in decimal, parses back to itself |
| Parsing.DashedFormExactly | internal/infrastructure/rest/handler.go:203 | a 36-character text is a UUID exactly when it has dashes at 8, 13, 18 and 23 and hex digits everywhere else |
| Parsing.UuidTestValues | internal/infrastructure/rest/handler_test.go:35-99 | the test's user id is a UUID and "not-uuid" is not |
| Parsing.AtoiTestValues | internal/infrastructure/rest/handler_test.go:70-72 | "slovo" does not parse and "1" parses to 1 |
| Parsing.IsUuid | internal/infrastructure/rest/handler.go:203 | uuid.Parse accepts only texts of 32, 36, 38 or 45 characters; a 45-character text with a case-insensitive "urn:uuid:" prefix is accepted exactly when the rest is; a 38-character text is accepted exactly when the 36 characters inside its first and last are, which are never looked at |
| Http.ResponseWriter.constructor | internal/infrastructure/rest/dto/response/response.go:33 | a fresh writer has sent nothing: no status written, default 200, empty body |
| Http.ResponseWriter.WriteHeader | internal/infrastructure/rest/dto/response/response.go:40 | the first call fixes the status and the headers sent; later calls change nothing |
| Http.ResponseWriter.SetHeader | internal/infrastructure/rest/dto/response/response.go:41 | sets one header and leaves the status, the sent headers and the body alone |
| Http.ResponseWriter.Write | internal/infrastructure/rest/dto/response/response.go:43 | writes 200 first if no status was written; appends the value, or on a broken connection returns a write failure and appends nothing |
| Http.Request.constructor | internal/infrastructure/rest/middleware/logg.go:57-61 | a new request carries its path id and no recorded status or errors |
| Http.StatusText | internal/infrastructure/rest/dto/response/response.go:34 | the reason phrases of 200, 400 and 500 are "OK", "Bad Request" and "Internal Server Error"; codes outside 100-599 get "" |
| Middleware.UpdateContext | internal/infrastructure/rest/middleware/logg.go:57-61 | the request now records exactly this status and this error list |
| Envelope.Apply | internal/infrastructure/rest/dto/response/response.go:51-61 | WithError sets the error and leaves data and status alone; WithData sets the data and leaves error and status alone |
| Envelope.SingleOption | internal/infrastructure/rest/dto/response/response.go:51-61 | one option sets its own field and leaves the other one unset |
| Envelope.NewResponse | internal/infrastructure/rest/dto/response/response.go:34-38 | the envelope has the status text, the error of the last WithError and the data of the last WithData |
| Envelope.LastErrorWins | internal/infrastructure/rest/dto/response/response.go:36-38 | the envelope has an error exactly when some option is a WithError, and it is the last such option's |
| Envelope.LastDataWins | internal/infrastructure/rest/dto/response/response.go:36-38 | the envelope has data exactly when some option is a WithData, and it is the last such option's |
| Envelope.ErrorAndDataOptionsCommute | internal/infrastructure/rest/dto/response/response.go:51-61 | swapping a WithError with a WithData after it changes neither field of the envelope |
| Envelope.EncodeErrors | internal/infrastructure/rest/dto/response/response.go:43-45 | a failed write adds one error, with the write failure as its cause and the encode label |
| Envelope.ReturnResponse | internal/infrastructure/rest/dto/response/response.go:33-47 | writes the status (if none was written yet) before Content-Type is set, so only the earlier headers are sent; the body gains the envelope unless the write fails, and the failure comes back wrapped |
| Handler.CheckCreateUser | internal/infrastructure/rest/handler.go:105-134 | a body that does not decode is rejected as malformed; an empty name is rejected; otherwise the name goes on; every rejection carries one of the three codes, never the internal one |
| Handler.CheckCreateQuestion | internal/infrastructure/rest/handler.go:284-313 | the same two checks for the question text |
| Handler.CheckUserPath | internal/infrastructure/rest/handler.go:200-216 | the path id passes, unchanged, exactly when it is a UUID |
| Handler.CheckId | internal/infrastructure/rest/handler.go:350-376 | an id passes exactly when it is the decimal text of an int from 1 to the int maximum; a parse failure and an id below 1 get their own descriptions |
| Handler.CheckCreateAnswer | internal/infrastructure/rest/handler.go:476-554 | checks run in order (body, id format, id at least 1, text, user UUID) and the first failure decides; on success the answer has the path's question id, the body's user id and text, and id 0 |
| Handler.Respond | internal/infrastructure/rest/handler.go:109-118 | one envelope is written, Content-Type is set after the status, and the request records the same status with the given errors followed by any write failure |
| Handler.Service.constructor | internal/infrastructure/rest/handler.go:21-32 | the handlers' service answers as the given implementation and has not been called yet |
| Handler.Service.CreateUser | internal/infrastructure/rest/handler.go:137 | a call is logged and answered by the implementation |
| Handler.Service.GetUsers | internal/infrastructure/rest/handler.go:169 | a call is logged and answered by the implementation |
| Handler.Service.DeleteUser | internal/infrastructure/rest/handler.go:219 | a call is logged and answered by the implementation |
| Handler.Service.GetQuestions | internal/infrastructure/rest/handler.go:250 | a call is logged and answered by the implementation |
| Handler.Service.CreateQuestion | internal/infrastructure/rest/handler.go:316 | a call is logged and answered by the implementation |
| Handler.Service.GetQuestionAndAnswers | internal/infrastructure/rest/handler.go:379 | a call is logged and answered by the implementation |
| Handler.Service.DeleteQuestionAndAnswers | internal/infrastructure/rest/handler.go:442 | a call is logged and answered by the implementation |
| Handler.Service.CreateAnswerToQuestion | internal/infrastructure/rest/handler.go:554 | a call is logged and answered by the implementation |
| Handler.Service.GetAnswer | internal/infrastructure/rest/handler.go:617 | a call is logged and answered by the implementation |
| Handler.Service.DeleteAnswer | internal/infrastructure/rest/handler.go:680 | a call is logged and answered by the implementation |
| Handler.ServerApi.constructor | internal/infrastructure/rest/handler.go:47-55 | the handlers call the given service |
| Handler.ServerApi.CreateUser | internal/infrastructure/rest/handler.go:98-162 | a rejected request gets 400 with its code and description and leaves the service log unchanged; otherwise the log gains one call with the name, then 500 on any service error or 200 with the new user id; the recorded status is the one written, every failure records an error, every error code is one of the three, and only the headers present before the handler ran are sent |
| Handler.ServerApi.GetUsers | internal/infrastructure/rest/handler.go:164-194 | the service log gains one call; 500 on any error, otherwise 200 with the users |
| Handler.ServerApi.DeleteUser | internal/infrastructure/rest/handler.go:196-243 | a path id that is not a UUID gets 400 and leaves the service log unchanged; otherwise the log gains one call with the path id, then 500 or 200 with no data |
| Handler.ServerApi.GetQuestions | internal/infrastructure/rest/handler.go:245-275 | the service log gains one call; 500 on any error, otherwise 200 with the questions |
| Handler.ServerApi.CreateQuestion | internal/infrastructure/rest/handler.go:277-341 | as CreateUser, for the question text and the new question id |
| Handler.ServerApi.GetQuestionAndAnswers | internal/infrastructure/rest/handler.go:343-404 | an id the id check refuses gets 400 and leaves the service log unchanged; otherwise the log gains one call with the parsed id, then 500 or 200 with the question and its answers |
| Handler.ServerApi.DeleteQuestionAndAnswers | internal/infrastructure/rest/handler.go:406-466 | the same id check; the log gains one call with the parsed id, then 500 or 200 with no data |
| Handler.ServerApi.CreateAnswerToQuestion | internal/infrastructure/rest/handler.go:468-579 | a request the answer checks refuse gets 400 and leaves the service log unchanged; otherwise the log gains one call with the assembled answer, then 500 or 200 with the new answer id |
| Handler.ServerApi.GetAnswer | internal/infrastructure/rest/handler.go:581-642 | the same id check; the log gains one call with the parsed id, then 500 or 200 with the answer |
| Handler.ServerApi.DeleteAnswer | internal/infrastructure/rest/handler.go:644-704 | the same id check; the log gains one call with the parsed id, then 500 or 200 with no data |
| Handler.IssuedIdsPassCheck | internal/infrastructure/rest/handler.go:350-376 | every positive id, written in decimal into a path, passes the id check as itself |
| Handler.CreateAnswerTestCases | internal/infrastructure/rest/handler_test.go:31-110 | the test's success, malformed body, "slovo", empty text and "not-uuid" cases give the answer or rejection the test expects |
| Usecase.Relay | internal/usecase/service.go:40-44 | a success passes through untouched; a failure keeps its cause and gains the operation label |
| Usecase.QNACrud.CreateUser | internal/usecase/service.go:37-45 | delegates the name to the user manager; its reply comes back as the relay describes |
| Usecase.QNACrud.GetUsers | internal/usecase/service.go:47-55 | delegates to the user manager's ReadUsers, relayed |
| Usecase.QNACrud.DeleteUser | internal/usecase/service.go:57-65 | delegates the id to the user manager, relayed under the GetUsers label |
| Usecase.QNACrud.GetQuestions | internal/usecase/service.go:67-75 | delegates to the question manager's ReadQuestions, relayed |
| Usecase.QNACrud.CreateQuestion | internal/usecase/service.go:77-85 | delegates the text to the question manager, relayed |
| Usecase.QNACrud.GetQuestionAndAnswers | internal/usecase/service.go:87-95 | delegates the id to the question manager, relayed |
| Usecase.QNACrud.DeleteQuestionAndAnswers | internal/usecase/service.go:97-105 | delegates the id to the question manager, relayed |
| Usecase.QNACrud.CreateAnswerToQuestion | internal/usecase/service.go:107-115 | delegates the answer to the question manager, relayed |
| Usecase.QNACrud.GetAnswer | internal/usecase/service.go:117-125 | delegates the id to the question manager's ReadAnswer, relayed |
| Usecase.QNACrud.DeleteAnswer | internal/usecase/service.go:127-135 | delegates the id to the question manager, relayed |
| Usecase.DelegationDeterminesReply | internal/usecase/service.go:41-43 | the service's result determines the manager's reply: no error kind is lost or reclassified |
| Usecase.DeleteUserLabelledAsGetUsers | internal/usecase/service.go:58 | a failed DeleteUser and a failed GetUsers carry the same outermost label |
| Db.Created | internal/infrastructure/db/repository.go:23-33 | an insert succeeds exactly when the store reported no error and a row was written, returning the generated id; a store error comes back wrapped; no row written becomes ErrNotFound, wrapped |
| Db.Deleted | internal/infrastructure/db/repository.go:61-71 | the same rule for a delete, with nothing returned on success |
| Db.NewAnswerRow | internal/infrastructure/db/repository.go:169-173 | the inserted row copies the answer's question id, user id and text, and not its id |
| Db.Select | internal/infrastructure/db/repository.go:127 | the rows the answers query selects are no more than the table's |
| Db.SelectKeepsExactlyMatching | internal/infrastructure/db/repository.go:127 | a row is selected exactly when it is in the table and belongs to the question asked for |
| Db.UsersFrom | internal/infrastructure/db/repository.go:47-53 | one user per row |
| Db.QuestionsFrom | internal/infrastructure/db/repository.go:85-91 | one question per row |
| Db.AnswersFrom | internal/infrastructure/db/repository.go:137-145 | one answer per row |
| Db.Repository.constructor | internal/infrastructure/db/repository.go:16 | a repository over the given store that has sent no question lookups yet |
| Db.Repository.FindFirstQuestion | internal/infrastructure/db/repository.go:122 | the question lookup is logged and answered by the store |
| Db.Repository.FindAnswers | internal/infrastructure/db/repository.go:127 | the answers query is logged and yields the table's answers to that question, or the store's error |
| Db.Repository.CreateUser | internal/infrastructure/db/repository.go:16-34 | inserts a row with the given name and reports by the insert rule |
| Db.Repository.UsersRead | internal/infrastructure/db/repository.go:36-56 | a failed query comes back wrapped; otherwise the users in row order, field for field |
| Db.Repository.ReadUsers | internal/infrastructure/db/repository.go:36-56 | the copy loop returns exactly what UsersRead describes |
| Db.Repository.DeleteUser | internal/infrastructure/db/repository.go:58-72 | reports the delete of that id by the delete rule |
| Db.Repository.QuestionsRead | internal/infrastructure/db/repository.go:74-94 | a failed query comes back wrapped (under the ReadQuestion label); otherwise the questions in row order, field for field |
| Db.Repository.ReadQuestions | internal/infrastructure/db/repository.go:74-94 | the copy loop returns exactly what QuestionsRead describes |
| Db.Repository.CreateQuestion | internal/infrastructure/db/repository.go:96-114 | inserts a row with the given text and reports by the insert rule |
| Db.Repository.QuestionAndAnswersRead | internal/infrastructure/db/repository.go:116-148 | a failed question lookup or answers query comes back wrapped; otherwise the question found and its answers |
| Db.Repository.ReadQuestionAndAnswers | internal/infrastructure/db/repository.go:116-148 | the loop returns exactly what QuestionAndAnswersRead describes, and the query log gains the question lookup and, only when the question was found, the answers query |
| Db.Repository.DeleteQuestionAndAnswers | internal/infrastructure/db/repository.go:150-164 | reports the delete by the delete rule, under the ReadQuestionAndAnswers label |
| Db.Repository.CreateAnswerToQuestion | internal/infrastructure/db/repository.go:166-186 | inserts the row NewAnswerRow builds and reports by the insert rule |
| Db.Repository.ReadAnswer | internal/infrastructure/db/repository.go:188-207 | success exactly when the lookup found a row, copied field for field; a failure is the store's own error, wrapped |
| Db.Repository.DeleteAnswer | internal/infrastructure/db/repository.go:209-223 | reports the delete by the delete rule |
| Db.AnswersBelongToQuestion | internal/infrastructure/db/repository.go:127-147 | the answers returned are exactly the table's answers to that question, each copied field for field |
| Db.MissingAnswerKeepsStoreCause | internal/infrastructure/db/repository.go:193-197 | a missing answer is reported with the store's record-not-found cause, never as ErrNotFound |
| Wiring.DeletingMissingAnswer | cmd/main.go:50 | deleting an absent answer reaches the handler as a not-found error labelled by the service and then the repository |
| Wiring.ReadingMissingAnswer | cmd/main.go:50 | reading an absent answer reaches the handler with the store's record-not-found cause and both labels |
| Wiring.CreatedQuestionIdReachesHandler | cmd/main.go:50 | when an insert writes a row, the generated id reaches the handler unchanged through both layers |
| Wiring.ServiceOver | cmd/main.go:50 | the one repository answers for both managers: every manager operation is the repository's operation of the same name |
| Wiring.AsDispatcher | cmd/main.go:53 | every operation the handlers call is the service's operation of the same name |
| Wiring.DeleteMissingAnswerRequest | cmd/main.go:50-53 | DELETE /answers/{id} for an absent answer, through handler, service and repository: the client gets 500 with the internal-error envelope, and the request records 500 and the not-found error |

## Left out

- Routing, the HTTP server, timeouts and shutdown are I/O and concurrency. Each handler is modelled as called directly with the path id already extracted.
- JSON decoding and encoding are not modelled. A decoded body is an input `Result`, and the envelope is kept as a value rather than as bytes. The key names the Go encoder would produce are not modelled.
- The logging middleware's own body and its clocks are not modelled. Only the two context values it reads (`UpdateContext`) are modelled.
- Request-context cancellation is left out. The `ctx` passed to every layer has no effect in the model.
- The ORM, SQL and the cascading delete of answers are left out. Each statement's outcome is an input: the error, the rows affected, the rows found and the generated id. The WHERE clause of the answers query is `Db.Select` over the answers table.
- Content sniffing and partial writes by `net/http` are not modelled. A write either appends the whole envelope or fails without writing anything.
- Parsing.Atoi: a syntax error and an out-of-range error are one cause, `BadNumber`. They differ only in the logged message.
- Strings are byte strings: a Dafny char stands for one byte of the Go string, and chars above 255 have no counterpart in Go. The length cases of `Parsing.IsUuid` count bytes.
- Parsing.IsUuid: the error `uuid.Parse` returns is represented by `BadUuid` with the text, not by its message. The hex digits are ASCII only.
- Error messages and stack traces of `pkg/errors` are left out. An error is its root cause and its chain of labels.
- The nil or zero values returned beside an error are left out. The model returns `Err` alone.
- A nil result beside a nil error is not modelled: `Ok` always carries a value. The handlers dereference the service result without a nil check, so such a result would panic there. Under the wiring in main.go it cannot occur, because every repository operation that succeeds returns the address of the row it read or built.
- Connection setup (`postgres.go`), logger setup (`logpack.go`) and configuration loading are not modelled.
