/** The storage layer's translation of FTP command failures. Every public
    operation wraps its body in a handler for FtpCommandException whose only
    statement throws what ConvertException yields; ConvertException itself
    throws FileNotFoundException for a "550" reply and returns every other
    exception unchanged. */
module ErrorTranslation {
  import opened Exceptions

  /** The FTP completion code for "requested action not taken: file unavailable". */
  const NotFoundCode := "550"

  /** How a call of ConvertException ends: it throws, or it returns an exception. */
  datatype Conversion = Throws(thrown: Exception) | Returns(returned: Exception)

  predicate IsNotFoundReply(e: Exception) {
    e.FtpCommandException? && e.completionCode == NotFoundCode
  }

  /** ConvertException: a "550" reply is thrown from inside the converter as a
      FileNotFoundException carrying the reply's message and the reply as its
      inner exception; any other exception is handed back unchanged. */
  function ConvertException(e: Exception): (c: Conversion)
    ensures c.Throws? <==> IsNotFoundReply(e)
    ensures c.Throws? ==> c.thrown.FileNotFoundException? && c.thrown.inner == e
                          && c.thrown.message == e.message
    ensures c.Returns? ==> c.returned == e
  {
    if e.FtpCommandException? && e.completionCode == NotFoundCode then
      Throws(FileNotFoundException(e.message, e))
    else
      Returns(e)
  }

  /** The exception that leaves `try { ... } catch (FtpCommandException ex)
      { throw ConvertException(ex); }` when the body threw `e`: handlers only
      see command failures; everything else passes the handler by. */
  function Translate(e: Exception): (t: Exception)
    ensures t.FileNotFoundException? <==> IsNotFoundReply(e) || e.FileNotFoundException?
    ensures !IsNotFoundReply(e) ==> t == e
    ensures IsNotFoundReply(e) ==> t == FileNotFoundException(e.message, e)
  {
    if e.FtpCommandException? then
      match ConvertException(e)
      case Throws(thrown) => thrown
      case Returns(returned) => returned
    else
      e
  }

  /** A translated exception is never a "550" reply again, so a second
      handler around the first changes nothing. */
  lemma TranslateIdempotent(e: Exception)
    ensures !IsNotFoundReply(Translate(e))
    ensures Translate(Translate(e)) == Translate(e)
  {
  }

  /** Translation of a returned value or a thrown exception. */
  function TranslateResult<T>(r: Result<T>): (t: Result<T>)
    ensures t.Ok? <==> r.Ok?
    ensures r.Ok? ==> t == r
    ensures r.Err? ==> t.error == Translate(r.error)
  {
    match r
    case Ok(v) => Ok(v)
    case Err(e) => Err(Translate(e))
  }

  function TranslateOutcome(o: Outcome): (t: Outcome)
    ensures t.Pass? <==> o.Pass?
    ensures o.Fail? ==> t.error == Translate(o.error)
  {
    match o
    case Pass => Pass
    case Fail(e) => Fail(Translate(e))
  }
}
