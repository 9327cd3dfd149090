/** Go error values as the modelled code builds them with the `errors` packages. */
module GoErrors {
  /** An error value; only its text is observable. */
  datatype Error = Error(message: string)

  /** `errors.Wrap(cause, message)`: the message, a colon, then the cause's text. */
  function Wrap(cause: Error, message: string): (e: Error)
    ensures |e.message| == |message| + 2 + |cause.message|
    ensures e.message[..|message| + 2] == message + ": "
    ensures e.message[|message| + 2..] == cause.message
  {
    Error(message + ": " + cause.message)
  }
}
