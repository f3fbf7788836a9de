/** The shape of what an Express handler or middleware does with a request. */
module Http {

  /** A response: a status code and a route-specific body. */
  datatype Reply<+B> = Reply(status: int, body: B)

  /** A handler's response together with the process state it leaves behind. */
  datatype Handled<+B, +S> = Handled(reply: Reply<B>, state: S)

  /**
    What a middleware does: call `next()` with the value it attaches to the
    request, or end the request with a status and an `error` field (plus the
    `error_description` or `message` field when the source sends one, else `""`).
   */
  datatype Gate<+P> = Next(value: P) | Halt(status: int, error: string, detail: string)
}
