/** Nullable values of the database rows and of form fields. */
module Wrappers {

  /** `None` stands for SQL NULL, a missing form field, or JavaScript `undefined`. */
  datatype Option<+T> = None | Some(value: T)

  /**
   * JavaScript's `x || 0` on a nullable number: a falsy left operand (NULL or
   * 0) gives the right operand 0, any other number is kept. For the caller
   * this is exactly "NULL counts as 0".
   */
  function OrZero(x: Option<int>): (r: int)
    ensures x.None? ==> r == 0
    ensures x.Some? ==> r == x.value
  {
    if x.None? || x.value == 0 then 0 else x.value
  }
}
