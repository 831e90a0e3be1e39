/** Small value wrappers shared by the other modules. */
module Wrappers {

  /** A value that may be missing: JavaScript's `null`, or a parse that found nothing. */
  datatype Option<+T> = None | Some(value: T)

  /** The outcome of one remote call: the parsed body, or a thrown transport/response error. */
  datatype Outcome<+T> = Success(value: T) | Failure

  /** A user-visible notification (`toast.success` / `toast.error`). */
  datatype Toast = ToastSuccess(message: string) | ToastError(message: string)
}
