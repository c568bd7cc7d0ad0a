/**
 * The avatar upload checks of auth-service/src/middlewares/upload.js: the
 * multer file filter and the error-handling middleware behind it.
 */
module Upload {
  import opened Json
  import opened JsString

  const ALLOWED_TYPES: seq<string> := ["image/jpeg", "image/jpg", "image/png", "image/gif"]

  /** 5 MiB, the limit both the filter and multer's own `limits.fileSize` use. */
  const MAX_SIZE: int := 5 * 1024 * 1024

  /** The phrase handleUploadError looks for in a plain error's message. */
  const INVALID_TYPE_PREFIX: string := "Invalid file type"
  const INVALID_TYPE_MESSAGE: string := INVALID_TYPE_PREFIX + ". Only JPEG, PNG and GIF are allowed."
  const TOO_LARGE_MESSAGE: string := "File too large. Maximum size is 5MB."
  const UPLOAD_ERROR_MESSAGE: string := "File upload error."

  /** `cb(null, true)`, or `cb(new Error(message), false)`. */
  datatype FilterResult = Accept | RejectFile(message: string)

  /**
   * fileFilter on a file's mimetype and `file.size`. The size is optional:
   * `undefined > maxSize` is false, so a file without one passes the size check.
   */
  function FileFilter(mimetype: string, size: Option<int>): (r: FilterResult)
    ensures r == Accept <==> mimetype in ALLOWED_TYPES && (size.None? || size.value <= MAX_SIZE)
    ensures mimetype !in ALLOWED_TYPES ==> r == RejectFile(INVALID_TYPE_MESSAGE)
    ensures mimetype in ALLOWED_TYPES && size.Some? && size.value > MAX_SIZE ==> r == RejectFile(TOO_LARGE_MESSAGE)
  {
    if mimetype !in ALLOWED_TYPES then RejectFile(INVALID_TYPE_MESSAGE)
    else if size.Some? && size.value > MAX_SIZE then RejectFile(TOO_LARGE_MESSAGE)
    else Accept
  }

  /** The boundary: exactly 5 MiB is accepted, one byte more is not. */
  lemma SizeBoundary(mimetype: string)
    requires mimetype in ALLOWED_TYPES
    ensures FileFilter(mimetype, Some(5242880)) == Accept
    ensures FileFilter(mimetype, Some(5242881)) == RejectFile(TOO_LARGE_MESSAGE)
  {
  }

  /** The type is checked first: an oversized file of the wrong type gets the type error. */
  lemma TypeCheckedFirst(mimetype: string, size: int)
    requires mimetype !in ALLOWED_TYPES && size > MAX_SIZE
    ensures FileFilter(mimetype, Some(size)) == RejectFile(INVALID_TYPE_MESSAGE)
  {
  }

  /** What reaches handleUploadError: a multer.MulterError with its code, or another Error. */
  datatype UploadError = MulterError(code: string) | OtherError(message: string)

  /** `res.status(status).json({ message })`, or `next(err)`. */
  datatype ErrorOutcome = Respond(status: int, message: string) | PassOn(err: UploadError)

  function HandleUploadError(err: UploadError): (r: ErrorOutcome)
    ensures err.MulterError? && err.code == "LIMIT_FILE_SIZE" ==> r == Respond(400, TOO_LARGE_MESSAGE)
    ensures err.MulterError? && err.code != "LIMIT_FILE_SIZE" ==> r == Respond(400, UPLOAD_ERROR_MESSAGE)
    ensures err.OtherError? && Contains(err.message, INVALID_TYPE_PREFIX) ==> r == Respond(400, err.message)
    ensures err.OtherError? && !Contains(err.message, INVALID_TYPE_PREFIX) ==> r == PassOn(err)
  {
    match err
    case MulterError(code) =>
      if code == "LIMIT_FILE_SIZE" then Respond(400, TOO_LARGE_MESSAGE) else Respond(400, UPLOAD_ERROR_MESSAGE)
    case OtherError(message) =>
      if Contains(message, INVALID_TYPE_PREFIX) then Respond(400, message) else PassOn(err)
  }

  /** Any plain error whose message starts with "Invalid file type" is answered with a 400 carrying it. */
  lemma TypeRejectionAnswered(message: string)
    requires StartsWith(message, INVALID_TYPE_PREFIX)
    ensures HandleUploadError(OtherError(message)) == Respond(400, message)
  {
    assert message == INVALID_TYPE_PREFIX + message[|INVALID_TYPE_PREFIX|..];
    ContainsPrefix(INVALID_TYPE_PREFIX, message[|INVALID_TYPE_PREFIX|..]);
  }

  /** The filter's type error is such a message. */
  lemma TypeRejectionQualifies()
    ensures StartsWith(INVALID_TYPE_MESSAGE, INVALID_TYPE_PREFIX)
  {
    StartsWithConcat(INVALID_TYPE_PREFIX, ". Only JPEG, PNG and GIF are allowed.");
  }

  /**
   * The filter's own size error is a plain Error that does not mention a
   * file type, so it is passed on to the next handler rather than answered.
   */
  lemma SizeRejectionPassedOn()
    ensures HandleUploadError(OtherError(TOO_LARGE_MESSAGE)) == PassOn(OtherError(TOO_LARGE_MESSAGE))
  {
    NotContainsWithoutFirst(TOO_LARGE_MESSAGE, INVALID_TYPE_PREFIX);
  }
}
