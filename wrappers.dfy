/** Option and Result: absent values (`undefined`, `?.`, `??`) and failed
    remote calls in the modelled TypeScript. */
module Wrappers {

  datatype Option<+T> = None | Some(value: T) {
    /** The value, or `default` when absent: TypeScript's `x ?? default`
        for a value that is either present or undefined. */
    function GetOr(default: T): T {
      match this
      case Some(v) => v
      case None => default
    }
  }

  datatype Result<+T, +E> = Success(value: T) | Failure(error: E)
}
