/**
 * Errors as the service builds them with github.com/pkg/errors: a root error (a sentinel,
 * a library's own error, or one made with errors.New) under a chain of labels, one for
 * every errors.Wrap it passed through on its way up.
 */
module Errors {

  /** What went wrong at the root of an error chain. */
  datatype Cause =
    | NotFound                      // db.ErrNotFound: an INSERT or DELETE touched no row
    | RecordNotFound                // the ORM's own error when First matches no row
    | StoreFailure(detail: string)  // any other error the ORM or the database reports
    | MalformedJson(detail: string) // a request body the JSON decoder rejects
    | WriteFailure(detail: string)  // writing the encoded response to the connection failed
    | BadNumber(num: string)        // strconv.Atoi rejected num
    | BadUuid(text: string)         // uuid.Parse rejected text
    | Invalid(msg: string)          // errors.New(msg) in a handler

  /** An error value: a root cause, or a label wrapped around an inner error. */
  datatype Error = Root(cause: Cause) | Wrapped(msg: string, inner: Error)

  /** errors.Cause: the root of the chain, whatever was wrapped around it. */
  function CauseOf(e: Error): Cause
  {
    match e
    case Root(c) => c
    case Wrapped(_, inner) => CauseOf(inner)
  }

  /** The labels of the chain, outermost first. */
  function Labels(e: Error): seq<string>
  {
    match e
    case Root(_) => []
    case Wrapped(msg, inner) => [msg] + Labels(inner)
  }

  /** errors.Wrap: adds one label in front and keeps the cause. */
  function Wrap(e: Error, op: string): (w: Error)
    ensures CauseOf(w) == CauseOf(e)
    ensures Labels(w) == [op] + Labels(e)
  {
    Wrapped(op, e)
  }

  /** An error is exactly its labels and its cause, so contracts may describe errors that way. */
  lemma {:induction false} LabelsAndCauseDetermineError(a: Error, b: Error)
    requires CauseOf(a) == CauseOf(b) && Labels(a) == Labels(b)
    ensures a == b
  {
    match a
    case Root(_) =>
      assert Labels(b) == [];
    case Wrapped(la, ia) =>
      assert |Labels(b)| > 0;
      var Wrapped(lb, ib) := b;
      assert Labels(ia) == Labels(a)[1..] == Labels(b)[1..] == Labels(ib);
      LabelsAndCauseDetermineError(ia, ib);
  }
}
