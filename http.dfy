/** The JavaScript and Express shapes shared by the services and the client:
    a thrown `Error`, truthiness of optional strings, and an HTTP reply. */
module Http {

  import opened Wrappers

  /** A thrown error: its message and the optional fields the handlers inspect
      (`error.kind` set by Mongoose cast errors, `error.response.status` and
      `error.code` set by axios). */
  datatype Error = Error(message: string, kind: Option<string>, responseStatus: Option<int>, code: Option<string>)

  /** `new Error(message)` */
  function Thrown(message: string): Error {
    Error(message, None, None, None)
  }

  /** An optional string is truthy unless it is `undefined` or empty. */
  predicate Truthy(s: Option<string>) {
    s.Some? && s.value != ""
  }

  /** `a || b` on optional strings. */
  function Or(a: Option<string>, b: Option<string>): Option<string> {
    if Truthy(a) then a else b
  }

  /** What `res.json(...)` sends: the payload, or a `{ message }` object. */
  datatype Body<+T> = Data(payload: T) | Message(message: string)

  datatype Reply<+T> = Reply(status: int, body: Body<T>)

  /** `res.status(status).json({ message })` */
  function MessageReply<T>(status: int, message: string): Reply<T> {
    Reply(status, Message(message))
  }
}
