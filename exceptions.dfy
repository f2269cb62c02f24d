/** The Python exceptions the core raises or catches, and the text that
    `str(e)` gives for each of them. */
module Exceptions {

  datatype PyError =
    | ValueError(msg: string)
    | KeyError(key: string)
    | RuntimeError(msg: string)
    | UnboundLocalError(name: string)
      /** Raised by the operating system for `filename`; `text` is what
          `str(e)` prints, errno and reason included. */
    | OSError(filename: string, text: string)
      /** An exception raised inside a library the model does not see
          (the model constructor, the completion call), by its text. */
    | Raised(text: string)

  /** `str(e)`. A `KeyError` prints the quoted key; an `UnboundLocalError`
      uses the wording of CPython 3.11 and later. */
  function Str(e: PyError): (s: string)
    ensures e.KeyError? ==> |s| == |e.key| + 2 && s[0] == '\'' && s[1..|s| - 1] == e.key && s[|s| - 1] == '\''
    ensures e.OSError? ==> s == e.text
  {
    match e
    case ValueError(msg) => msg
    case KeyError(key) => "'" + key + "'"
    case RuntimeError(msg) => msg
    case UnboundLocalError(name) =>
      "cannot access local variable '" + name + "' where it is not associated with a value"
    case OSError(_, text) => text
    case Raised(text) => text
  }
}
