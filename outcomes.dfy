/** Values shared by every part of the model: optional values, error objects,
    the outcome of an awaited call, the signed-in user and JavaScript strings. */
module Outcomes {

  /** `T | null | undefined`. */
  datatype Option<+T> = None | Some(value: T) {
    /** `x ?? d`. */
    function GetOr(default: T): T {
      if Some? then value else default
    }
  }

  /** An error object as thrown or returned: a store or auth error carries a
      `code`; a plain `new Error(message)` has none. */
  datatype Error = Error(code: Option<string>, message: string)

  function PlainError(message: string): (e: Error)
    ensures e.code == None && e.message == message
  {
    Error(None, message)
  }

  /** What awaiting a query of the store client yields: the `{ data, error }`
      pair the promise resolves with, or the value it rejects with. */
  datatype Reply<+T> = Resolved(data: Option<T>, error: Option<Error>) | Rejected(reason: Error)

  /** How an `async` function settles: it returns a value or it throws. */
  datatype Settled<+T> = Returned(value: T) | Threw(error: Error)

  /** An async service function's run: the remote calls it issued, in order,
      and how it settled. */
  datatype Traced<+C, +T> = Traced(calls: seq<C>, result: Settled<T>)

  /** The authenticated identity held by the auth store. */
  datatype User = User(id: string, email: string)

  /** An auth session; `session.user` is always present. */
  datatype Session = Session(user: User)

  /** A JavaScript string is a sequence of UTF-16 code units, and its `length`
      counts code units, not code points. */
  newtype CodeUnit = x: int | 0 <= x < 0x1_0000

  type Text = seq<CodeUnit>

  /** A toast notification shown to the user. */
  datatype Toast = SuccessToast(message: string) | ErrorToast(message: string)

  /** JavaScript truthiness of an optional string: `undefined`, `null` and `''`
      are falsy. */
  predicate Truthy(s: Option<string>) {
    s.Some? && s.value != ""
  }

  /** `if (error) throw error; return data;` applied to an awaited query. */
  function ThrowOnError<T>(reply: Reply<T>): (r: Settled<Option<T>>)
    ensures r.Threw? <==> reply.Rejected? || reply.error.Some?
    ensures reply.Rejected? ==> r == Threw(reply.reason)
    ensures reply.Resolved? && reply.error.Some? ==> r == Threw(reply.error.value)
    ensures r.Returned? ==> r.value == reply.data
  {
    match reply
    case Rejected(e) => Threw(e)
    case Resolved(data, error) =>
      if error.Some? then Threw(error.value) else Returned(data)
  }
}
