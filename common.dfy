/** Option and Result for the handlers' outcomes, and the identifiers a store hands out. */
module Common {

  datatype Option<T> = None | Some(value: T) {
    /** The value, or `default` when there is none. */
    function GetOr(default: T): T {
      if Some? then value else default
    }
  }

  /** A handler either answers with a value or fails with one of its error kinds. */
  datatype Result<T, E> = Ok(value: T) | Err(error: E)

  /** A document identifier. Stores that create their documents hand ids out in allocation
      order, so a store's record with id `i` is element `i` of its sequence. */
  type Id = nat

  function Min(a: int, b: int): int {
    if a <= b then a else b
  }
}
