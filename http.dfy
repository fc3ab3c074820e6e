/** Shapes of the client's HTTP outcomes. A request the model issues does not run:
    its outcome is an argument of the method that consumes it. */
module Http {
  import opened Common

  /** `error.response` of a rejected axios request: its status and the two body
      fields the handlers read (`data.detail`, `data.message`). */
  datatype ErrorResponse = ErrorResponse(status: int, detail: Option<string>, message: Option<string>)

  /** A rejected request: the server's response when there was one, and `error.message`. */
  datatype HttpError = HttpError(response: Option<ErrorResponse>, message: string)

  /** What an awaited request produced: a body, or a rejection. */
  datatype Outcome<+T> = Done(value: T) | Failed(error: HttpError)

  /** JavaScript truthiness of an optional string: present and non-empty. */
  predicate Present(s: Option<string>) {
    s.Some? && s.value != ""
  }

  /** `error.response?.status === code`. */
  predicate HasStatus(e: HttpError, code: int) {
    e.response.Some? && e.response.value.status == code
  }
}
