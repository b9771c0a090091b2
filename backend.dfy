/**
  Outcomes of calls into the hosted backend (its database queries and its authentication
  service). The backend itself is not part of this model: every handler that calls it takes
  the outcome as a parameter, so each proof holds for every answer the backend could give.
 */
module Backend {
  import opened Wrappers

  /** The `{ data, error }` answer of a database query: data (possibly null) or a failure with its message. */
  datatype Response<T> = Data(value: Option<T>) | Failure(message: string)

  /**
    The answer of an authentication call: success, an error object returned in `{ error }`,
    or a rejected promise (an exception) carrying a message.
   */
  datatype AuthReply = Ok | ReturnedError(message: string) | Threw(message: string)
}
