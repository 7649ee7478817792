/**
 The Python exceptions the bot's code raises or lets escape, reduced to their
 class and to `str(error)`, the text an f-string inserts for `{error}`.
 */
module Exceptions {
  import Json

  datatype ErrorKind =
    | TypeError
    | KeyError
    | UnboundLocalError
      /** An exception raised by code outside the model (`requests`, the JSON decoder). */
    | External(name: string)

  /** A raised exception; `text` is `str(error)`. */
  datatype Error = Error(kind: ErrorKind, text: string)

  /**
   The exception `kind(message)`. `str` of a `KeyError` is the `repr` of its
   argument; every other class here prints its argument as it is.
   */
  function Raise(kind: ErrorKind, message: string): Error
  {
    Error(kind, if kind == KeyError then Json.Quote(message) else message)
  }
}
