/** Value wrappers shared by the two stores. */
module Wrappers {

  /** A nullable value: `null` in the stores is `None`. */
  datatype Option<+T> = None | Some(value: T)

  /** What an action hands back to its caller: the value it returns, or the
      error it re-raises (represented by that error's message). */
  datatype Result<+T> = Ok(value: T) | Err(message: string)

  /** What a call into the remote notes API produced: the decoded response
      body, or a rejected promise carrying an error message. An error whose
      `message` is missing is represented by the empty message. */
  datatype Outcome<+T> = Success(value: T) | Failure(message: string)
}
