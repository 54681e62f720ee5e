/**
 * Thrown values and the export handler's error helpers: reading a message from whatever
 * was thrown, wrapping it with a context prefix while keeping it as the cause, and the
 * guard that reports a field an earlier validation should have guaranteed.
 */
module Errors {
  import opened Wrappers
  import opened Json
  import Schema
  import Text

  /** A value a JavaScript `throw` (or a rejected promise) can carry. */
  datatype Thrown =
    | ErrorObject(message: string, cause: Option<Thrown>)
    | ZodError(issues: seq<Schema.Issue>)
    | NonError(text: string)

  /** `v instanceof Error`; the validation library's error class extends `Error`. */
  predicate IsError(e: Thrown) {
    e.ErrorObject? || e.ZodError?
  }

  /** What a computation that may throw ends with. */
  datatype Outcome<+T> = Returned(value: T) | Threw(error: Thrown)

  /** `new Error(message)`. */
  function Fail(message: string): Thrown {
    ErrorObject(message, None)
  }

  /** `getErrorMessage`: an error's message, or `String(v)` for anything else. */
  function GetErrorMessage(e: Thrown): (r: string)
    ensures e.ErrorObject? ==> r == e.message
    ensures e.ZodError? ==> r == Schema.IssuesMessage(e.issues)
    ensures !IsError(e) ==> r == e.text
  {
    match e
    case ErrorObject(m, _) => m
    case ZodError(issues) => Schema.IssuesMessage(issues)
    case NonError(t) => t
  }

  /** `wrapError`: a new error whose message is `context + ": " + <message of e>`, with `e` as its cause. */
  function WrapError(e: Thrown, context: string): Thrown {
    ErrorObject(context + ": " + GetErrorMessage(e), Some(e))
  }

  /**
   * A wrapped error is always an `Error`, keeps exactly the original value as its cause, and
   * its message splits back into the context and the original message.
   */
  lemma WrapErrorRecoverable(e: Thrown, context: string)
    ensures var w := WrapError(e, context);
            && IsError(w)
            && w.cause == Some(e)
            && Text.StartsWith(w.message, context + ": ")
            && w.message[|context| + 2..] == GetErrorMessage(e)
  {
    var w := WrapError(e, context);
    assert w.message == (context + ": ") + GetErrorMessage(e);
  }

  /** Wrapping twice nests the contexts, outermost first, and keeps the first wrapping as cause. */
  lemma WrapTwice(e: Thrown, inner: string, outer: string)
    ensures GetErrorMessage(WrapError(WrapError(e, inner), outer)) == outer + ": " + inner + ": " + GetErrorMessage(e)
    ensures WrapError(WrapError(e, inner), outer).cause == Some(WrapError(e, inner))
  {
  }

  /**
   * `assertValidated(condition, field)`: the error thrown when `condition` is falsy
   * (`undefined`, `null`, `false`, `0`, `""`), and nothing otherwise.
   */
  function AssertValidated(condition: Option<Json>, field: string): (r: Option<Thrown>)
    ensures r.None? <==> JsTruthyOpt(condition)
    ensures r.Some? ==> r.value == Fail("Bug: " + field + " missing — validate() should have been called first")
  {
    if JsTruthyOpt(condition) then None
    else Some(Fail("Bug: " + field + " missing — validate() should have been called first"))
  }
}
