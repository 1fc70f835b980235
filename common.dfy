/** Values shared by every part of the model: optional values, the error values that
    cancellation reasons and rejections carry, and the outcome of a settled promise. */
module Common {

  /** JavaScript `undefined` versus a present value. */
  datatype Option<+T> = None | Some(value: T) {
    /** A destructuring default: the value if present, `default` otherwise. */
    function GetOr(default: T): T {
      match this
      case Some(v) => v
      case None => default
    }
  }

  /** The text of an Error. The two template strings the core builds are kept as
      constructors instead of being rendered to characters. */
  datatype Message =
    | Text(text: string)
      /** `waitAsync of ${delayInMs} cancelled` */
    | WaitAsyncCancelled(delayInMs: int)
      /** `Timed out after ${timeoutInMs}ms.` */
    | TimedOutAfter(timeoutInMs: int)

  /** A rejection reason or cancellation reason. `undefined` and `null` are `Undefined`;
      the other falsy values (false, 0, "", NaN) are `OtherFalsy`; an Error object
      (always truthy) carries its `name` and `message`. */
  datatype ErrorValue =
    | Undefined
    | OtherFalsy
    | Error(name: string, message: Message)
  {
    /** JavaScript truthiness, as used by `if (this._error)` and `error || ...`. */
    predicate Truthy() {
      Error?
    }

    /** `undefined` or `null`: the values on which reading `.name` or `.message` throws a
        TypeError. */
    predicate Nullish() {
      Undefined?
    }
  }

  /** `new CancelError(message)`: an Error whose name is "CancelError". */
  function CancelError(message: Message): (e: ErrorValue)
    ensures IsCancelError(e) && e.Truthy()
    ensures e.message == message
  {
    Error("CancelError", message)
  }

  /** `isCancelError`: an Error instance whose name is "CancelError". */
  predicate IsCancelError(e: ErrorValue) {
    e.Error? && e.name == "CancelError"
  }

  /** The state a promise settles in: fulfilled with a value or rejected with a reason. */
  datatype Settlement<+T> = Resolved(value: T) | Rejected(reason: ErrorValue)
}
