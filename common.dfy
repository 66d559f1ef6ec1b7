/** Values shared by the upload client, the client cache and the extension:
    the exceptions they raise, result wrappers, and the monitor's log levels. */
module Common {

  /** The exception kinds the three components raise. */
  datatype Error =
    | IllegalArgumentException   // bad constructor argument, bad getImporter/getExporter call
    | IllegalStateException      // uploadFile on a client that is not initialised
    | IOException                // every backend failure other than bad credentials
    | CredentialsException       // listing the buckets was refused with status 403

  /** A value that may be absent (a Java null, or a stub that throws instead of answering). */
  datatype Option<+T> = None | Some(value: T)

  /** A value or the exception that was raised instead. */
  datatype Result<+T> = Success(value: T) | Failure(error: Error)

  /** Normal completion of a void method, or the exception it raised. */
  datatype Outcome = Pass | Fail(error: Error)

  /** The levels of the monitor's log calls; the text of a message is not modelled. */
  datatype Level = Info | Debug | Severe

  /** How many entries of `logs` are at `level`. */
  function LogCount(logs: seq<Level>, level: Level): (k: nat)
    ensures k <= |logs|
    ensures k == 0 <==> level !in logs
  {
    if logs == [] then 0
    else (if logs[0] == level then 1 else 0) + LogCount(logs[1..], level)
  }
}
