/**
 * The outcome of a filter's `verify`.  The Java filters return a boolean and
 * throw `AbortException` to stop the search; here the exception is the
 * third verdict.
 */
module Verdicts {
  datatype Verdict = Match | NoMatch | Abort
}
