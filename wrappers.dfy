/** The optional value used throughout the model: TypeScript's `T | null`,
    an optional property `x?: T`, or one key of a `Partial<T>` patch. */
module Wrappers {

  datatype Option<+T> = None | Some(value: T) {

    /** The value if present, `default` otherwise. */
    function GetOr(default: T): T {
      match this
      case Some(v) => v
      case None => default
    }
  }
}
