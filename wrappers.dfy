/** Optional values: JavaScript's `undefined`/`null` beside a present value. */
module Wrappers {

  datatype Option<+T> = None | Some(value: T) {

    /** The value, or `default` when absent (JavaScript's `x ?? default`). */
    function GetOr(default: T): T {
      match this
      case Some(v) => v
      case None => default
    }
  }

  /**
   * The outcome of an awaited call that may throw: a value, or a thrown value.
   * `Thrown(Some(m))` is an `Error` instance with message `m`; `Thrown(None)` is a
   * thrown value that is not an `Error` (for which the components fall back to a
   * fixed message).
   */
  datatype Outcome<+T> = Ok(value: T) | Thrown(message: Option<string>)

  /** `error instanceof Error ? error.message : fallback` */
  function MessageOr<T>(o: Outcome<T>, fallback: string): string
    requires o.Thrown?
  {
    o.message.GetOr(fallback)
  }
}

/** The notifications of hooks/use-toast, as the components call them. */
module Toasts {

  datatype Toast = Toast(title: string, description: string, destructive: bool)

  /** `toast({ title: 'Error', description, variant: 'destructive' })` */
  function ErrorToast(description: string): Toast {
    Toast("Error", description, true)
  }

  /** `toast({ title: 'Success', description })` */
  function SuccessToast(description: string): Toast {
    Toast("Success", description, false)
  }
}
