/** What every route handler shares: the response shape and the session check. */
module Http {
  import opened Wrappers
  import Js

  type UserId = string

  /**
   * A handler's JSON reply: a 200 with a body, or an error status with the
   * text of its `{ error }` field.
   */
  datatype Response<+T> = Ok(body: T) | Error(status: nat, message: string)

  /** `session?.user?.id` is truthy: a signed-in caller with a non-empty id. */
  predicate SignedIn(session: Option<UserId>) {
    Js.Truthy(session)
  }

  /** The reply of every handler when the session check fails. */
  function Unauthorized<T>(): Response<T> {
    Error(401, "Unauthorized")
  }

  /** The generic failure that every handler's `catch` block returns. */
  const InternalError: string := "Internal server error"
}
