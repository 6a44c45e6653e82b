/** Option and Result: the model's null and thrown exceptions (src/errors.ts, src/utils/is-nullish.ts). */
module Wrappers {
  import opened Js

  datatype Option<T> = None | Some(value: T)

  /** The errors the core throws. */
  datatype Error =
    | InvalidCardError(value: Json)      // InvalidCardError: "Invalid card index: <value>"
    | DuplicateCardError(index: int)     // DuplicateCardError: "Card <index> already exists in collection"
    | InvalidStateError(message: string) // InvalidStateError(message)
    | TypeError                          // a JavaScript TypeError, e.g. calling forEach on a non-array
    | InvalidMonth(month: int)           // `throw new Error("Invalid month: <month>")`
    | PlainError(message: string)        // `throw new Error(message)`

  datatype Result<T> = Ok(value: T) | Err(error: Error)
}
