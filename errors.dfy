/** The coded error record of internal/errors/errors.go. */
module Errors {
  import opened Wrappers
  import opened Text

  /** A non-nil Go `error` value, known by the text its Error method returns. */
  datatype Cause = Cause(text: string)

  /** errors.Error; `err == None` stands for a nil `Err` field. */
  datatype Error = Error(code: string, message: string, err: Option<Cause>)

  /** errors.New: a coded error that wraps nothing. */
  function New(code: string, message: string): (e: Error)
    ensures e.code == code && e.message == message
    ensures e.err.None?
  {
    Error(code, message, None)
  }

  /** errors.Wrap: a coded error around an inner error (which may itself be nil). */
  function Wrap(code: string, message: string, err: Option<Cause>): (e: Error)
    ensures e.code == code && e.message == message && e.err == err
  {
    Error(code, message, err)
  }

  /** (*Error).Error: the message, followed by ": " and the inner error's text when there is one. */
  function ErrorString(e: Error): (s: string)
    ensures HasPrefix(s, e.message)
    ensures s == e.message <==> e.err.None?
    ensures e.err.Some? ==> s[|e.message|..] == ": " + e.err.value.text
  {
    match e.err
    case None => e.message
    case Some(inner) => e.message + ": " + inner.text
  }

  /** Wrapping a nil error builds the same record as New, so both print only the message. */
  lemma WrapNilIsNew(code: string, message: string)
    ensures Wrap(code, message, None) == New(code, message)
    ensures ErrorString(Wrap(code, message, None)) == message
  {
  }
}
