/** Small shared vocabulary: an optional value, the group roles, and JavaScript truthiness of an id. */
module Common {

  /** A value that may be absent (`undefined` / `null` in the source). */
  datatype Option<+T> = None | Some(value: T)

  /** The role strings that group membership rows hold. */
  const OWNER: string := "OWNER"
  const ADMIN: string := "ADMIN"
  const MEMBER: string := "MEMBER"

  /** `if (x)` on an optional string id: false for `undefined` and for the empty string. */
  predicate Truthy(x: Option<string>)
  {
    x.Some? && x.value != ""
  }
}

/** The responses of the HTTP controllers: a status and what was written as the body. */
module Http {

  /** `res.json(value)`, `res.json({ message })`, `res.json({ error })`, or `res.end()`. */
  datatype Body<+T> = Data(value: T) | Message(text: string) | ErrorText(text: string) | NoBody

  datatype Reply<+T> = Reply(status: int, body: Body<T>)

  const InternalError: string := "Internal Server Error"

  /** The reply every controller sends from its `catch` block when a database call throws. */
  function ServerError<T>(): Reply<T>
  {
    Reply(500, Message(InternalError))
  }
}
