/** The .NET exceptions that the FTP storage layer raises, converts or lets
    through, and the two result shapes used for operations that can throw. */
module Exceptions {

  datatype Exception =
    /** A reply from the FTP server that rejects a command (e.g. "550"). */
    | FtpCommandException(completionCode: string, message: string)
    /** A socket-level failure; 10061 is WSAECONNREFUSED. */
    | SocketException(errorCode: int)
    | FileNotFoundException(message: string, inner: Exception)
    /** Thrown by String.Substring on an out-of-range start or length. */
    | ArgumentOutOfRangeException
    /** Thrown by int.Parse on text that is not an integer. */
    | FormatException
    /** Thrown by int.Parse on an integer outside the 32-bit range. */
    | OverflowException
    | NullReferenceException
    | ObjectDisposedException
    /** Any other failure of the client library (authentication, TLS, DNS). */
    | OtherException(message: string)

  /** The value of an expression that either returns or throws. */
  datatype Result<+T> = Ok(value: T) | Err(error: Exception) {
    predicate IsFailure() { Err? }
    function PropagateFailure<U>(): Result<U>
      requires Err?
    {
      Err(error)
    }
    function Extract(): T
      requires Ok?
    {
      value
    }
  }

  /** The end of a void operation: it returned, or it threw. */
  datatype Outcome = Pass | Fail(error: Exception)
}
