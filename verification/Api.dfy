/** What a call through the generated client comes back with, and the error of a failed poll. */
module Api {
  /** Transport: the client returned an error. Status: a response without a JSON200 body. */
  datatype Call<+T> = Transport(message: string) | Status(code: int, body: string) | Ok(value: T)

  datatype Fault = Unreachable(message: string) | Unexpected(code: int, body: string)

  /** A fault with the context Poll wraps around it; the empty context when it wraps none. */
  datatype PollError = PollError(context: string, fault: Fault)

  const MAX_ERROR_BODY_LEN := 500

  function HttpError(code: int, body: string): Fault {
    Unexpected(code, if |body| > MAX_ERROR_BODY_LEN then body[..MAX_ERROR_BODY_LEN] else body)
  }

  /** The error of a failed call; of a long body it carries the first 500 bytes. */
  function FaultOf<T>(c: Call<T>): (f: Fault)
    requires !c.Ok?
    ensures f.Unexpected? <==> c.Status?
    ensures c.Transport? ==> f.message == c.message
    ensures c.Status? ==> f.code == c.code && f.body <= c.body && (|f.body| == 500 || (f.body == c.body && |c.body| < 500))
  {
    match c
    case Transport(message) => Unreachable(message)
    case Status(code, body) => HttpError(code, body)
  }
}
