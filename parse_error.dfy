/** Parse errors and the helpers every vanilla parser uses to build them
    (VGMParserVanillaBase).  A helper is a function of the parser's path and
    of the byte count its counting stream has delivered, so building an
    error neither reads nor advances the stream. */
module ParseError {
  import opened Wrappers
  import opened JavaInt

  /** What an error message reports; the text layout is not modelled. */
  datatype Message =
    | BadMagic(position: int, receivedBytes: seq<UInt8>, expectedBytes: seq<UInt8>)
    | UnsupportedVersion(position: int, receivedVersion: UInt32, supported: seq<UInt32>)
    | BadDataBlockCompatibility(position: int, tag: int, receivedPad: UInt32, expectedPad: int)
    | UnrecognizedTag(tag: int)
    | EndOfInput

  /** The exceptions the parsers catch. */
  datatype Exception =
    | EOFException
    | IllegalArgumentException(text: Message)

  /** `e.getMessage()`. */
  function GetMessage(e: Exception): Message {
    match e
    case EOFException => EndOfInput
    case IllegalArgumentException(m) => m
  }

  /** VGMParseError: offset, path, message and the exception, if any. */
  datatype ParseError = ParseError(
    offset: int,
    path: Option<string>,
    message: Message,
    exception: Option<Exception>)

  /** vavr's Validation<Seq<VGMParseError>, T>. */
  datatype Validation<T> = Valid(value: T) | Invalid(errors: seq<ParseError>)

  /** `error(message)`: the error at the current byte count, with the path
      and no exception. */
  function Error(path: string, byteCount: int, message: Message): (r: ParseError)
    ensures r.offset == byteCount && r.path == Some(path)
    ensures r.message == message && r.exception == None
  {
    ParseError(byteCount, Some(path), message, None)
  }

  /** `errorV(message)`: an invalid result holding exactly that one error. */
  function ErrorV<T>(path: string, byteCount: int, message: Message): (r: Validation<T>)
    ensures r.Invalid? && |r.errors| == 1
    ensures r.errors[0].offset == byteCount && r.errors[0].path == Some(path)
    ensures r.errors[0].message == message && r.errors[0].exception == None
  {
    Invalid([Error(path, byteCount, message)])
  }

  /** `errorException(e)`: the error carrying `e.getMessage()` and `e`. */
  function ErrorException(path: string, byteCount: int, e: Exception): (r: ParseError)
    ensures r.offset == byteCount && r.path == Some(path)
    ensures r.message == GetMessage(e) && r.exception == Some(e)
  {
    ParseError(byteCount, Some(path), GetMessage(e), Some(e))
  }

  /** `errorExceptionV(e)`: an invalid result holding exactly that one error. */
  function ErrorExceptionV<T>(path: string, byteCount: int, e: Exception): (r: Validation<T>)
    ensures r.Invalid? && |r.errors| == 1
    ensures r.errors[0].offset == byteCount && r.errors[0].path == Some(path)
    ensures r.errors[0].message == GetMessage(e) && r.errors[0].exception == Some(e)
  {
    Invalid([ErrorException(path, byteCount, e)])
  }
}
