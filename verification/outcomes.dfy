/**
 The value-or-exception results that flow between the activities of the
 document pipeline and the external services they call.
 */
module Outcomes {

  /** The outcome of an activity or of an external call: its value, or the
      message (`str(e)`) of the exception it raised. */
  datatype Result<+T> = Ok(value: T) | Fail(error: string)

  /** An optional value, used for environment settings that may be unset. */
  datatype Option<+T> = None | Some(value: T)
}
