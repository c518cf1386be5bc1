// Small value wrappers shared by the whole model: an optional value and the
// HTTP-style reply every controller produces.

module Wrappers {

  datatype Option<+T> = None | Some(value: T)

  /** The value if present, else the default (`x ?? d` for a field that is
      either set or absent). */
  function GetOr<T>(o: Option<T>, default: T): (r: T)
    ensures o.Some? ==> r == o.value
    ensures o.None? ==> r == default
  {
    if o.Some? then o.value else default
  }

  /** What a controller writes back: a success body, or a status with a message.
      `Respond` covers the `res.status(code).json({ message })` exits. */
  datatype Reply<+T> =
    | Done(status: nat, body: T)
    | Respond(status: nat, message: string)

  const OK: nat := 200
  const CREATED: nat := 201
  const BAD_REQUEST: nat := 400
  const UNAUTHORIZED: nat := 401
  const FORBIDDEN: nat := 403
  const NOT_FOUND: nat := 404
  const SERVER_ERROR: nat := 500
}
